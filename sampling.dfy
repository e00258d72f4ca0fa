/** Random backfill: `getArraySubsetExcluding`, a do-while loop that draws
    random nodes of the collection until it has collected `numberFillers`
    nodes that are neither the current node nor one of the relations found.

    `Math.random` is an oracle: a sequence of draws, the k-th draw picking the
    node at index `draws[k] % nodes.length`. The loop may never stop, so a
    finite sequence of draws can end before the loop does; the result is then
    `Unfinished`. */
module Sampling {
  import opened Js
  import opened Host
  import opened Documents

  datatype Filling =
    /** the loop stopped; `rest` are the draws it did not consume */
    | Sampled(relations: seq<Relation>, rest: seq<nat>)
    /** the draws ran out while the loop was still running */
    | Unfinished

  function IdsOf(rs: seq<Relation>): set<Id>
  {
    set r | r in rs :: r.id
  }

  predicate DistinctIds(rs: seq<Relation>)
  {
    forall i, j :: 0 <= i < j < |rs| ==> rs[i].id != rs[j].id
  }

  predicate AllFillers(rs: seq<Relation>)
  {
    forall i :: 0 <= i < |rs| ==> rs[i].score.None?
  }

  function Elems(ids: seq<Id>): set<Id>
  {
    set id | id in ids
  }

  /** The loop from the top of its body: `hash` holds the ids excluded so
      far, `acc` the fillers collected so far (the counter `i` is `|acc|`),
      `nf` is `numberFillers`. A drawn id already in `hash` skips straight to
      the loop condition (`continue` in a do-while). */
  function Sample(ids: seq<Id>, hash: set<Id>, acc: seq<Relation>, nf: Number, draws: seq<nat>): Filling
    requires |ids| > 0
    decreases |draws|
  {
    if draws == [] then Unfinished
    else
      var id := ids[draws[0] % |ids|];
      var isNew := id !in hash;
      var hash' := if isNew then hash + {id} else hash;
      var acc' := if isNew then acc + [Filler(id)] else acc;
      if Below(|acc'|, nf) then Sample(ids, hash', acc', nf, draws[1..])
      else Sampled(acc', draws[1..])
  }

  /** `Math.min(nodes.length - toExclude.length, count)`. */
  function NumberFillers(ids: seq<Id>, toExclude: seq<Relation>, count: Number): Number
  {
    Min(Finite((|ids| - |toExclude|) as real), count)
  }

  /** The ids the loop starts out excluding: the current node's and those of the relations found. */
  function Excluded(toExclude: seq<Relation>, excludedId: Id): set<Id>
  {
    {excludedId} + IdsOf(toExclude)
  }

  /** `getArraySubsetExcluding(collection, toExclude, count, excludedDocumentId)` on the ids of the collection. */
  function SubsetExcluding(ids: seq<Id>, toExclude: seq<Relation>, count: Number, excludedId: Id, draws: seq<nat>): Filling
    requires |ids| > 0
  {
    Sample(ids, Excluded(toExclude, excludedId), [], NumberFillers(ids, toExclude, count), draws)
  }

  /** What the loop keeps true from one iteration to the next, and what it yields when it stops. */
  lemma {:induction false} SampleSound(ids: seq<Id>, hash: set<Id>, acc: seq<Relation>, nf: Number, draws: seq<nat>)
    requires |ids| > 0
    requires IdsOf(acc) <= hash && IdsOf(acc) <= Elems(ids)
    requires DistinctIds(acc) && AllFillers(acc)
    ensures var r := Sample(ids, hash, acc, nf, draws);
            r.Sampled? ==>
              && acc <= r.relations
              && DistinctIds(r.relations) && AllFillers(r.relations)
              && IdsOf(r.relations) <= Elems(ids)
              && (forall i :: |acc| <= i < |r.relations| ==> r.relations[i].id !in hash)
              && (Below(|acc|, nf) ==> !Below(|r.relations|, nf) && Below(|r.relations| - 1, nf))
              && (!Below(|acc|, nf) ==> |r.relations| <= |acc| + 1)
    decreases |draws|
  {
    if draws != [] {
      var id := ids[draws[0] % |ids|];
      assert id in Elems(ids);
      var isNew := id !in hash;
      var hash' := if isNew then hash + {id} else hash;
      var acc' := if isNew then acc + [Filler(id)] else acc;
      assert IdsOf(acc') <= hash' && IdsOf(acc') <= Elems(ids) by {
        forall x | x in IdsOf(acc') ensures x in hash' && x in Elems(ids) {
          var r :| r in acc' && r.id == x;
          if r !in acc { assert r == Filler(id); }
        }
      }
      assert DistinctIds(acc') && AllFillers(acc');
      if Below(|acc'|, nf) {
        SampleSound(ids, hash', acc', nf, draws[1..]);
      }
    }
  }

  /** The properties the source promises of `getArraySubsetExcluding`, for a run that stops:
      fillers only, pairwise distinct, drawn from the collection, never the current
      node nor a relation already found, and `numberFillers` of them (rounded up)
      when that is positive; when it is not, the do-while still runs once. */
  lemma SubsetExcludingSound(ids: seq<Id>, toExclude: seq<Relation>, count: Number, excludedId: Id, draws: seq<nat>)
    requires |ids| > 0
    ensures var r := SubsetExcluding(ids, toExclude, count, excludedId, draws);
            var nf := NumberFillers(ids, toExclude, count);
            r.Sampled? ==>
              && AllFillers(r.relations) && DistinctIds(r.relations)
              && IdsOf(r.relations) <= Elems(ids)
              && excludedId !in IdsOf(r.relations)
              && IdsOf(r.relations) !! IdsOf(toExclude)
              && (nf.Finite? && nf.r > 0.0 ==> nf.r <= |r.relations| as real < nf.r + 1.0)
              && (!(nf.Finite? && nf.r > 0.0) ==> |r.relations| <= 1)
  {
    var hash := Excluded(toExclude, excludedId);
    var nf := NumberFillers(ids, toExclude, count);
    SampleSound(ids, hash, [], nf, draws);
    var r := SubsetExcluding(ids, toExclude, count, excludedId, draws);
    if r.Sampled? {
      forall x | x in IdsOf(r.relations) ensures x !in hash {
        var k :| 0 <= k < |r.relations| && r.relations[k].id == x;
      }
    }
  }

  lemma {:induction false} DistinctIdsCard(rs: seq<Relation>)
    requires DistinctIds(rs)
    ensures |IdsOf(rs)| == |rs|
  {
    if rs != [] {
      DistinctIdsCard(rs[1..]);
      assert IdsOf(rs) == {rs[0].id} + IdsOf(rs[1..]);
      assert rs[0].id !in IdsOf(rs[1..]);
    }
  }

  lemma SubsetCard<T>(a: set<T>, b: set<T>)
    requires a <= b
    ensures |a| <= |b|
  {
    assert b == a + (b - a);
  }

  /** The nodes the loop can still add: those of the collection it does not start out excluding. */
  function Eligible(ids: seq<Id>, toExclude: seq<Relation>, excludedId: Id): set<Id>
  {
    Elems(ids) - Excluded(toExclude, excludedId)
  }

  /** The possible hang: `numberFillers` counts `toExclude` but not the current
      node, so it can exceed the nodes that are left to draw, and then no
      sequence of draws, however long, makes the loop stop. */
  lemma SamplingCannotFinish(ids: seq<Id>, toExclude: seq<Relation>, count: Number, excludedId: Id, draws: seq<nat>)
    requires |ids| > 0
    requires NumberFillers(ids, toExclude, count).Finite?
    requires NumberFillers(ids, toExclude, count).r > |Eligible(ids, toExclude, excludedId)| as real
    ensures SubsetExcluding(ids, toExclude, count, excludedId, draws) == Unfinished
  {
    var r := SubsetExcluding(ids, toExclude, count, excludedId, draws);
    SubsetExcludingSound(ids, toExclude, count, excludedId, draws);
    if r.Sampled? {
      DistinctIdsCard(r.relations);
      SubsetCard(IdsOf(r.relations), Eligible(ids, toExclude, excludedId));
      assert false;
    }
  }

  /** Conversely, when enough nodes are left the loop can stop: some sequence of draws ends it. */
  lemma {:induction false} SampleCanFinish(ids: seq<Id>, hash: set<Id>, acc: seq<Relation>, nf: Number)
    returns (draws: seq<nat>)
    requires |ids| > 0
    requires Below(|acc|, nf) && nf.r <= (|acc| + |Elems(ids) - hash|) as real
    ensures Sample(ids, hash, acc, nf, draws).Sampled?
    decreases |Elems(ids) - hash|
  {
    var left := Elems(ids) - hash;
    assert left != {};
    var id :| id in left;
    var j :| 0 <= j < |ids| && ids[j] == id;
    var hash' := hash + {id};
    var acc' := acc + [Filler(id)];
    RemoveOne(Elems(ids), hash, id);
    SmallModulo(j, |ids|);
    if Below(|acc'|, nf) {
      var more := SampleCanFinish(ids, hash', acc', nf);
      draws := [j] + more;
      assert draws[0] == j && draws[1..] == more;
      assert Sample(ids, hash, acc, nf, draws) == Sample(ids, hash', acc', nf, more);
    } else {
      draws := [j];
      assert draws[0] == j && draws[1..] == [];
      assert Sample(ids, hash, acc, nf, draws) == Sampled(acc', []);
    }
  }

  lemma SmallModulo(j: nat, n: nat)
    requires j < n
    ensures j % n == j
  {
  }

  /** Excluding one more eligible id leaves one fewer eligible. */
  lemma RemoveOne(all: set<Id>, hash: set<Id>, id: Id)
    requires id in all - hash
    ensures |all - (hash + {id})| == |all - hash| - 1
  {
    assert all - (hash + {id}) == (all - hash) - {id};
  }

  lemma SamplingCanFinish(ids: seq<Id>, toExclude: seq<Relation>, count: Number, excludedId: Id)
    returns (draws: seq<nat>)
    requires |ids| > 0
    requires NumberFillers(ids, toExclude, count).Finite?
    requires 0.0 < NumberFillers(ids, toExclude, count).r <= |Eligible(ids, toExclude, excludedId)| as real
    ensures SubsetExcluding(ids, toExclude, count, excludedId, draws).Sampled?
  {
    draws := SampleCanFinish(ids, Excluded(toExclude, excludedId), [], NumberFillers(ids, toExclude, count));
  }

  /** Three nodes, no relations from the engine and minRelations = 3: three
      fillers are asked for but only two nodes are not the current one. */
  lemma ThreeNodesNeverFinish(draws: seq<nat>)
    ensures SubsetExcluding(["a", "b", "c"], [], Finite(3.0), "a", draws) == Unfinished
  {
    var ids: seq<Id> := ["a", "b", "c"];
    var none: seq<Relation> := [];
    assert NumberFillers(ids, none, Finite(3.0)) == Finite(3.0);
    assert Elems(ids) == {"a", "b", "c"};
    assert IdsOf(none) == {};
    var left := Eligible(ids, none, "a");
    assert left == {"b", "c"};
    assert |left| == 2;
    SamplingCannotFinish(ids, none, Finite(3.0), "a", draws);
  }

  /** With `numberFillers` at 0 (as many relations as nodes) the do-while body
      still runs once and can add one filler. */
  lemma NoFillersAskedOneReturned()
    ensures SubsetExcluding(["a", "b"], [Relation("x", Some(0.5)), Relation("y", Some(0.4))], Finite(1.0), "a", [1])
            == Sampled([Filler("b")], [])
  {
  }

  /** `getArraySubsetExcluding` as the source runs it, on the collection's nodes. */
  method ArraySubsetExcluding(store: Store, collection: string, toExclude: seq<Relation>, count: Number, excludedId: Id, draws: seq<nat>)
    returns (out: Filling)
    requires store.Valid() && store.Has(collection) && |store.collections[collection].order| > 0
    ensures out == SubsetExcluding(store.collections[collection].order, toExclude, count, excludedId, draws)
  {
    var nodes := store.Data(collection);
    var numberFillers := Min(Finite((|nodes| - |toExclude|) as real), count);
    var hash := {excludedId};
    var e := 0;
    while e < |toExclude|
      invariant 0 <= e <= |toExclude|
      invariant hash == {excludedId} + IdsOf(toExclude[..e])
    {
      assert toExclude[..e + 1] == toExclude[..e] + [toExclude[e]];
      hash := hash + {toExclude[e].id};
      e := e + 1;
    }
    assert toExclude[..e] == toExclude;
    ghost var ids := store.collections[collection].order;
    var result := [];
    var i := 0;
    var k := 0;
    while k < |draws|
      invariant 0 <= k <= |draws|
      invariant i == |result|
      invariant Below(i, numberFillers) || k == 0
      invariant Sample(ids, hash, result, numberFillers, draws[k..]) == SubsetExcluding(ids, toExclude, count, excludedId, draws)
      decreases |draws| - k
    {
      var item := nodes[draws[k] % |nodes|];
      assert draws[k..][1..] == draws[k + 1..];
      k := k + 1;
      if item.id !in hash {
        result := result + [Filler(item.id)];
        hash := hash + {item.id};
        i := i + 1;
      }
      if !Below(i, numberFillers) {
        return Sampled(result, draws[k..]);
      }
    }
    return Unfinished;
  }
}
