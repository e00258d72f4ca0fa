/** What `loadSource` does to the store, stated on values: the training
    that comes first, the relation pass over the primary collection and, in
    two-collection mode, the pass over the reference collection. The
    methods of `Plugin` are proved against these functions. */
module Dispatch {
  import opened Js
  import opened Host
  import opened PluginOptions
  import opened Documents
  import opened Sampling
  import opened Relations

  /** What happened, in order: the engine was trained, or a node was updated. */
  datatype Event =
    | Trained(training: Training)
    | Updated(typeName: string, id: Id)

  lemma AppendAssoc<T>(a: seq<T>, b: seq<T>, c: seq<T>)
    ensures (a + b) + c == a + (b + c)
  {
  }

  lemma UpdateTwice<K, V>(m: map<K, V>, k: K, v1: V, v2: V)
    ensures m[k := v1][k := v2] == m[k := v2]
  {
  }

  /** One `Updated` event per id, in order. */
  function Updates(typeName: string, ids: seq<Id>): (r: seq<Event>)
    ensures |r| == |ids|
    ensures forall i :: 0 <= i < |ids| ==> r[i] == Updated(typeName, ids[i])
  {
    seq(|ids|, i requires 0 <= i < |ids| => Updated(typeName, ids[i]))
  }

  /** Recording one more update after `before + Updates(typeName, ids)`. */
  lemma UpdatesAppend(before: seq<Event>, typeName: string, ids: seq<Id>, id: Id)
    ensures before + Updates(typeName, ids + [id]) == (before + Updates(typeName, ids)) + [Updated(typeName, id)]
  {
    assert (ids + [id])[..|ids|] == ids;
  }

  /** How a `loadSource` run ends. */
  datatype LoadOutcome =
    | Finished
    | Failed(error: RunError)
    /** a backfill loop had not stopped when the random draws ran out */
    | Hung

  /** One `createCollectionRelations` pass over a collection in state `c`. */
  function RunPass(s: Settings, ix: Index, c: CollectionState, reversed: bool, draws: seq<nat>): PassResult
    requires WellFormed(c)
  {
    PassFrom(s, ix, Snapshot(c), 0, c.nodes, reversed, draws, [])
  }

  /** A pass leaves the collection well formed: same ids, same order. */
  lemma RunPassWellFormed(s: Settings, ix: Index, c: CollectionState, reversed: bool, draws: seq<nat>)
    requires WellFormed(c)
    ensures WellFormed(CollectionState(c.order, RunPass(s, ix, c, reversed, draws).nodes))
  {
    PassKeepsNodes(s, ix, Snapshot(c), 0, c.nodes, reversed, draws, []);
  }

  /** The nodes of a pass are updated in the collection's order; the pass
      finishes exactly when all of them have been. */
  lemma RunPassInOrder(s: Settings, ix: Index, c: CollectionState, reversed: bool, draws: seq<nat>)
    requires WellFormed(c)
    ensures var p := RunPass(s, ix, c, reversed, draws);
            && p.updated <= c.order
            && (p.rest.Some? <==> p.updated == c.order)
  {
    var data := Snapshot(c);
    PassUpdatesInOrder(s, ix, data, 0, c.nodes, reversed, draws, []);
    PassFinishesIffAllUpdated(s, ix, data, 0, c.nodes, reversed, draws, []);
    var p := RunPass(s, ix, c, reversed, draws);
    assert p.updated == c.order[..|p.updated|];
  }

  /** After a pass that finishes, every node of the collection carries its
      relation field, written from a relation list of its own, and keeps its
      other fields. */
  lemma RunPassWritesEveryNode(s: Settings, ix: Index, c: CollectionState, reversed: bool, draws: seq<nat>)
    requires WellFormed(c)
    ensures var p := RunPass(s, ix, c, reversed, draws);
            p.rest.Some? ==>
              forall id :: id in c.nodes ==>
                && id in p.nodes && Written(s, c.nodes[id], p.nodes[id], reversed)
                && Related(s, ix, c.order, c.nodes[id], p.nodes[id], reversed)
  {
    var data := Snapshot(c);
    assert IdsOfNodes(data) == c.order;
    PassWritesEveryNode(s, ix, data, c.nodes, reversed, draws);
    forall id | id in c.nodes ensures exists i :: 0 <= i < |data| && data[i] == c.nodes[id] {
      var i :| 0 <= i < |c.order| && c.order[i] == id;
      assert data[i] == c.nodes[id];
    }
  }

  datatype RunResult = RunResult(outcome: LoadOutcome, world: map<string, CollectionState>, events: seq<Event>)

  /** The world after one collection was replaced by a well-formed state. */
  ghost function Put(world: map<string, CollectionState>, typeName: string, c: CollectionState): (r: map<string, CollectionState>)
    requires WorldWellFormed(world) && WellFormed(c)
    ensures WorldWellFormed(r)
    ensures r.Keys == world.Keys + {typeName} && r[typeName] == c
    ensures forall tn :: tn in world && tn != typeName ==> r[tn] == world[tn]
  {
    world[typeName := c]
  }

  /** What `train` or `trainBidirectional` hands to the engine: the primary
      collection's documents, and in two-collection mode the reference
      collection's too. Converting a node can throw, and since the check on
      line 128 re-tests the primary collection, a missing reference collection
      surfaces as a TypeError when its `data()` is called. */
  ghost function TrainingOf(s: Settings, world: map<string, CollectionState>): (r: Result<Training, RunError>)
    requires WorldWellFormed(world) && s.typeName in world
    ensures r.Failure? ==> r.error == TypeError
    ensures r.Success? <==>
              && ConvertAll(Snapshot(world[s.typeName]), s.field, s.caseSensitive).Success?
              && (s.reference.Some? ==>
                    && s.reference.value in world
                    && ConvertAll(Snapshot(world[s.reference.value]), s.referenceField, s.caseSensitive).Success?)
    ensures r.Success? ==> (r.value.Bidirectional? <==> s.reference.Some?)
    ensures r.Success? ==> r.value.docs == ConvertAll(Snapshot(world[s.typeName]), s.field, s.caseSensitive).value
    ensures r.Success? && s.reference.Some? ==>
              && s.reference.value in world
              && r.value.referenceDocs == ConvertAll(Snapshot(world[s.reference.value]), s.referenceField, s.caseSensitive).value
  {
    var docs := ConvertAll(Snapshot(world[s.typeName]), s.field, s.caseSensitive);
    if docs.Failure? then Failure(TypeError)
    else if s.reference.None? then Success(Single(docs.value))
    else if s.reference.value !in world then Failure(TypeError)
    else
      var refDocs := ConvertAll(Snapshot(world[s.reference.value]), s.referenceField, s.caseSensitive);
      if refDocs.Failure? then Failure(TypeError)
      else Success(Bidirectional(docs.value, refDocs.value))
  }

  /** The relation passes of `loadSource` after training: the primary
      collection first, then, in two-collection mode, the reference
      collection as the first pass left it. */
  ghost function Passes(s: Settings, ix: Index, world: map<string, CollectionState>, draws: seq<nat>): (r: RunResult)
    requires WorldWellFormed(world) && s.typeName in world
    requires s.reference.Some? ==> s.reference.value in world
    ensures WorldWellFormed(r.world)
  {
    var primary := world[s.typeName];
    var p1 := RunPass(s, ix, primary, false, draws);
    RunPassWellFormed(s, ix, primary, false, draws);
    var world1 := Put(world, s.typeName, CollectionState(primary.order, p1.nodes));
    var events1 := Updates(s.typeName, p1.updated);
    if p1.rest.None? then RunResult(Hung, world1, events1)
    else if s.reference.None? then RunResult(Finished, world1, events1)
    else
      var refName := s.reference.value;
      var reference := world1[refName];
      var p2 := RunPass(s, ix, reference, true, p1.rest.value);
      RunPassWellFormed(s, ix, reference, true, p1.rest.value);
      RunResult(if p2.rest.Some? then Finished else Hung,
                Put(world1, refName, CollectionState(reference.order, p2.nodes)),
                events1 + Updates(refName, p2.updated))
  }

  /** `loadSource(actions)` on a store whose collections are `world`. */
  ghost function LoadSourceSpec(s: Settings, config: RecommenderConfig, engine: EngineCall -> seq<Similarity>,
                                world: map<string, CollectionState>, draws: seq<nat>): (r: RunResult)
    requires WorldWellFormed(world)
    ensures WorldWellFormed(r.world)
  {
    if s.typeName !in world then RunResult(Failed(CollectionNotFound(s.typeName)), world, [])
    else
      var training := TrainingOf(s, world);
      if training.Failure? then RunResult(Failed(TypeError), world, [])
      else
        var r := Passes(s, Index(config, engine, training.value), world, draws);
        RunResult(r.outcome, r.world, [Trained(training.value)] + r.events)
  }

  /** The primary collection is looked up first: when it is missing,
      `loadSource` throws before anything is trained or written. */
  lemma MissingCollectionThrows(s: Settings, config: RecommenderConfig, engine: EngineCall -> seq<Similarity>,
                                world: map<string, CollectionState>, draws: seq<nat>)
    requires WorldWellFormed(world) && s.typeName !in world
    ensures LoadSourceSpec(s, config, engine, world, draws) == RunResult(Failed(CollectionNotFound(s.typeName)), world, [])
  {
  }

  /** The check on line 128 re-tests the primary collection, so a missing
      reference collection is not reported as missing: `data()` is called on
      undefined and the run ends in a TypeError, before any training. */
  lemma MissingReferenceIsTypeError(s: Settings, config: RecommenderConfig, engine: EngineCall -> seq<Similarity>,
                                    world: map<string, CollectionState>, draws: seq<nat>)
    requires WorldWellFormed(world) && s.typeName in world
    requires s.reference.Some? && s.reference.value !in world
    ensures LoadSourceSpec(s, config, engine, world, draws) == RunResult(Failed(TypeError), world, [])
  {
  }

  /** Without lower-casing no conversion throws, so a run over a store that
      has its collections always trains and reaches the relation passes. */
  lemma CaseInsensitiveRunTrains(s: Settings, config: RecommenderConfig, engine: EngineCall -> seq<Similarity>,
                                 world: map<string, CollectionState>, draws: seq<nat>)
    requires WorldWellFormed(world) && s.typeName in world
    requires s.reference.Some? ==> s.reference.value in world
    requires !s.caseSensitive
    ensures var r := LoadSourceSpec(s, config, engine, world, draws);
            !r.outcome.Failed? && r.events != [] && r.events[0].Trained?
  {
    ConvertAllCaseInsensitive(Snapshot(world[s.typeName]), s.field);
    if s.reference.Some? {
      ConvertAllCaseInsensitive(Snapshot(world[s.reference.value]), s.referenceField);
    }
  }

  /** A run that throws has trained nothing and written nothing. */
  lemma FailedRunChangesNothing(s: Settings, config: RecommenderConfig, engine: EngineCall -> seq<Similarity>,
                                world: map<string, CollectionState>, draws: seq<nat>)
    requires WorldWellFormed(world)
    ensures var r := LoadSourceSpec(s, config, engine, world, draws);
            r.outcome.Failed? <==> r.events == []
    ensures var r := LoadSourceSpec(s, config, engine, world, draws);
            r.outcome.Failed? ==> r.world == world
  {
  }

  /** Training always comes first, once, and on both collections exactly in
      two-collection mode; every later event is a node update. */
  lemma TrainingPrecedesUpdates(s: Settings, config: RecommenderConfig, engine: EngineCall -> seq<Similarity>,
                                world: map<string, CollectionState>, draws: seq<nat>)
    requires WorldWellFormed(world)
    ensures var r := LoadSourceSpec(s, config, engine, world, draws);
            r.events != [] ==>
              && r.events[0].Trained?
              && (r.events[0].training.Bidirectional? <==> s.reference.Some?)
              && forall e :: e in r.events[1..] ==> e.Updated?
  {
    var r := LoadSourceSpec(s, config, engine, world, draws);
    if r.events != [] {
      var training := TrainingOf(s, world).value;
      var rest := Passes(s, Index(config, engine, training), world, draws).events;
      PassesOnlyUpdate(s, Index(config, engine, training), world, draws);
      assert r.events[1..] == rest;
    }
  }

  lemma PassesOnlyUpdate(s: Settings, ix: Index, world: map<string, CollectionState>, draws: seq<nat>)
    requires WorldWellFormed(world) && s.typeName in world
    requires s.reference.Some? ==> s.reference.value in world
    ensures forall e :: e in Passes(s, ix, world, draws).events ==> e.Updated?
  {
  }

  /** The passes keep every collection and every collection's node ids in their order. */
  lemma PassesKeepOrders(s: Settings, ix: Index, world: map<string, CollectionState>, draws: seq<nat>)
    requires WorldWellFormed(world) && s.typeName in world
    requires s.reference.Some? ==> s.reference.value in world
    ensures var r := Passes(s, ix, world, draws);
            && r.world.Keys == world.Keys
            && forall tn :: tn in world ==> r.world[tn].order == world[tn].order
  {
    var primary := world[s.typeName];
    var p1 := RunPass(s, ix, primary, false, draws);
    RunPassWellFormed(s, ix, primary, false, draws);
    var world1 := Put(world, s.typeName, CollectionState(primary.order, p1.nodes));
    SameOrders(world, world1, s.typeName);
    if p1.rest.Some? && s.reference.Some? {
      var reference := world1[s.reference.value];
      var p2 := RunPass(s, ix, reference, true, p1.rest.value);
      RunPassWellFormed(s, ix, reference, true, p1.rest.value);
      var world2 := Put(world1, s.reference.value, CollectionState(reference.order, p2.nodes));
      SameOrders(world1, world2, s.reference.value);
      assert Passes(s, ix, world, draws).world == world2;
    }
  }

  lemma SameOrders(world: map<string, CollectionState>, world': map<string, CollectionState>, typeName: string)
    requires typeName in world && world'.Keys == world.Keys + {typeName}
    requires world'[typeName].order == world[typeName].order
    requires forall tn :: tn in world && tn != typeName ==> world'[tn] == world[tn]
    ensures world'.Keys == world.Keys
    ensures forall tn :: tn in world ==> world'[tn].order == world[tn].order
  {
  }

  /** The passes touch only the collections they run over. */
  lemma PassesTouchOnlyTheirCollections(s: Settings, ix: Index, world: map<string, CollectionState>, draws: seq<nat>)
    requires WorldWellFormed(world) && s.typeName in world
    requires s.reference.Some? ==> s.reference.value in world
    ensures var r := Passes(s, ix, world, draws);
            forall tn :: tn in world && tn != s.typeName && (s.reference.None? || tn != s.reference.value) ==>
              tn in r.world && r.world[tn] == world[tn]
  {
  }

  lemma UpdatesPrefix(typeName: string, ids: seq<Id>, all: seq<Id>)
    requires ids <= all
    ensures Updates(typeName, ids) <= Updates(typeName, all)
  {
    assert Updates(typeName, ids) == Updates(typeName, all)[..|ids|];
  }

  /** The `updateNode` calls a run makes if it finishes: every node of the
      primary collection in its order, then, in two-collection mode, every
      node of the reference collection in its order. */
  function AllUpdates(s: Settings, world: map<string, CollectionState>): seq<Event>
    requires s.typeName in world && (s.reference.Some? ==> s.reference.value in world)
  {
    Updates(s.typeName, world[s.typeName].order)
    + if s.reference.Some? then Updates(s.reference.value, world[s.reference.value].order) else []
  }

  /** Every node receives at most one `updateNode` call, primary collection
      first, each collection in its order; the passes finish exactly when
      every node has received its call. */
  lemma PassesUpdateInOrder(s: Settings, ix: Index, world: map<string, CollectionState>, draws: seq<nat>)
    requires WorldWellFormed(world) && s.typeName in world
    requires s.reference.Some? ==> s.reference.value in world
    ensures var r := Passes(s, ix, world, draws);
            && r.events <= AllUpdates(s, world)
            && (r.outcome == Finished <==> r.events == AllUpdates(s, world))
  {
    var r := Passes(s, ix, world, draws);
    var primary := world[s.typeName];
    var first := Updates(s.typeName, primary.order);
    var second := if s.reference.Some? then Updates(s.reference.value, world[s.reference.value].order) else [];
    assert AllUpdates(s, world) == first + second;
    var p1 := RunPass(s, ix, primary, false, draws);
    RunPassInOrder(s, ix, primary, false, draws);
    UpdatesPrefix(s.typeName, p1.updated, primary.order);
    RunPassWellFormed(s, ix, primary, false, draws);
    var world1 := Put(world, s.typeName, CollectionState(primary.order, p1.nodes));
    if p1.rest.None? {
      assert r.events == Updates(s.typeName, p1.updated);
      assert |p1.updated| < |primary.order|;
    } else if s.reference.Some? {
      var reference := world1[s.reference.value];
      assert reference.order == world[s.reference.value].order;
      var p2 := RunPass(s, ix, reference, true, p1.rest.value);
      RunPassInOrder(s, ix, reference, true, p1.rest.value);
      UpdatesPrefix(s.reference.value, p2.updated, reference.order);
      assert r.events == first + Updates(s.reference.value, p2.updated);
      assert r.outcome == Finished <==> p2.updated == reference.order;
    }
  }

  /** After passes that finish, every node of the primary collection carries
      the relation field with references typed as the reference collection in
      two-collection mode and as the primary otherwise; in two-collection mode
      with two distinct collections, every node of the reference collection
      carries the reference relation field with references typed as the
      primary. Each field is written from a relation list of its node, and
      all other fields are kept. */
  lemma PassesWriteEveryNode(s: Settings, ix: Index, world: map<string, CollectionState>, draws: seq<nat>)
    requires WorldWellFormed(world) && s.typeName in world
    requires s.reference.Some? ==> s.reference.value in world
    ensures var r := Passes(s, ix, world, draws);
            var primary := world[s.typeName];
            r.outcome == Finished && (s.reference.None? || s.reference.value != s.typeName) ==>
              forall id :: id in primary.nodes ==>
                && id in r.world[s.typeName].nodes && Written(s, primary.nodes[id], r.world[s.typeName].nodes[id], false)
                && Related(s, ix, primary.order, primary.nodes[id], r.world[s.typeName].nodes[id], false)
    ensures var r := Passes(s, ix, world, draws);
            r.outcome == Finished && s.reference.Some? && s.reference.value != s.typeName ==>
              var reference := world[s.reference.value];
              forall id :: id in reference.nodes ==>
                && id in r.world[s.reference.value].nodes && Written(s, reference.nodes[id], r.world[s.reference.value].nodes[id], true)
                && Related(s, ix, reference.order, reference.nodes[id], r.world[s.reference.value].nodes[id], true)
  {
    var r := Passes(s, ix, world, draws);
    var primary := world[s.typeName];
    var p1 := RunPass(s, ix, primary, false, draws);
    RunPassWellFormed(s, ix, primary, false, draws);
    RunPassWritesEveryNode(s, ix, primary, false, draws);
    var world1 := Put(world, s.typeName, CollectionState(primary.order, p1.nodes));
    if p1.rest.Some? && s.reference.Some? {
      var reference := world1[s.reference.value];
      var p2 := RunPass(s, ix, reference, true, p1.rest.value);
      RunPassWellFormed(s, ix, reference, true, p1.rest.value);
      RunPassWritesEveryNode(s, ix, reference, true, p1.rest.value);
    }
  }

  /** A run that does not throw trains first and then updates the nodes as
      `PassesUpdateInOrder` says: all of them exactly when it finishes. */
  lemma RunUpdatesInOrder(s: Settings, config: RecommenderConfig, engine: EngineCall -> seq<Similarity>,
                          world: map<string, CollectionState>, draws: seq<nat>)
    requires WorldWellFormed(world)
    ensures var r := LoadSourceSpec(s, config, engine, world, draws);
            !r.outcome.Failed? ==>
              && s.typeName in world && (s.reference.Some? ==> s.reference.value in world)
              && |r.events| > 0 && r.events[0].Trained?
              && r.events[1..] <= AllUpdates(s, world)
              && (r.outcome == Finished <==> r.events[1..] == AllUpdates(s, world))
  {
    var r := LoadSourceSpec(s, config, engine, world, draws);
    if !r.outcome.Failed? {
      var training := TrainingOf(s, world).value;
      PassesUpdateInOrder(s, Index(config, engine, training), world, draws);
      assert r.events[1..] == Passes(s, Index(config, engine, training), world, draws).events;
    }
  }
}
