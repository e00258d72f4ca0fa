/** `RecommenderPlugin`: construction (validation, option merge, the
    `enabled` gate), `loadSource` (the single- or two-collection dispatch and
    the training that precedes every write), `createCollectionRelations`,
    `fillWithRandomRelations` and `createNodeRelations`. */
module Plugin {
  import opened Js
  import opened Host
  import opened PluginOptions
  import opened Documents
  import opened Sampling
  import opened Relations
  import opened Dispatch

  /** The foreign `ContentBasedRecommender` object: its options, its answers
      as a function of what it was trained on, and what it was last trained on. */
  class Recommender {
    const config: RecommenderConfig
    const engine: EngineCall -> seq<Similarity>
    var training: Option<Training>

    constructor (config: RecommenderConfig, engine: EngineCall -> seq<Similarity>)
      ensures this.config == config && this.engine == engine && training == None
    {
      this.config := config;
      this.engine := engine;
      training := None;
    }

    method Train(docs: seq<Document>)
      modifies this
      ensures training == Some(Single(docs))
    {
      training := Some(Single(docs));
    }

    method TrainBidirectional(docs: seq<Document>, referenceDocs: seq<Document>)
      modifies this
      ensures training == Some(Bidirectional(docs, referenceDocs))
    {
      training := Some(Bidirectional(docs, referenceDocs));
    }

    function Trained(): Index
      reads this
      requires training.Some?
    {
      Index(config, engine, training.value)
    }
  }

  /** The host API the plugin registers its source loader with. */
  class Api {
    var loaders: seq<RecommenderPlugin>

    constructor ()
      ensures loaders == []
    {
      loaders := [];
    }
  }

  /** `new RecommenderPlugin(api, options)`: validation throws before anything
      else happens; otherwise the options are merged over the defaults, and
      only an enabled plugin builds its recommender and registers `loadSource`. */
  method NewPlugin(api: Api, options: Option<RawOptions>, engine: EngineCall -> seq<Similarity>)
    returns (r: Result<RecommenderPlugin, ConfigError>)
    modifies api
    ensures r.Failure? <==> ValidateOptions(options).Fail?
    ensures r.Failure? ==> r.error == ValidateOptions(options).error && api.loaders == old(api.loaders)
    ensures r.Success? ==>
              && fresh(r.value)
              && r.value.options == Merge(options.value)
              && r.value.settings == SettingsOf(Merge(options.value))
              && r.value.events == []
              && (r.value.recommender != null <==> Truthy(Lookup(Merge(options.value), "enabled")))
              && api.loaders == old(api.loaders) + (if r.value.recommender != null then [r.value] else [])
    ensures r.Success? && r.value.recommender != null ==>
              && fresh(r.value.recommender) && r.value.recommender.training == None
              && r.value.recommender.engine == engine
              && r.value.recommender.config
                 == RecommenderConfig(Lookup(Merge(options.value), "minScore"), Lookup(Merge(options.value), "maxRelations"))
  {
    var v := ValidateOptions(options);
    if v.Fail? {
      return Failure(v.error);
    }
    var p := new RecommenderPlugin(api, options.value, engine);
    return Success(p);
  }

  class RecommenderPlugin {
    const api: Api
    const options: RawOptions
    /** the merged options, each read through its key */
    const settings: Settings
    /** null when the plugin is disabled */
    const recommender: Recommender?
    ghost var events: seq<Event>

    constructor (api: Api, options: RawOptions, engine: EngineCall -> seq<Similarity>)
      requires ValidateOptions(Some(options)).Pass?
      modifies api
      ensures this.api == api && this.options == Merge(options) && settings == SettingsOf(Merge(options)) && events == []
      ensures recommender != null <==> Truthy(Lookup(Merge(options), "enabled"))
      ensures recommender != null ==>
                && fresh(recommender) && recommender.training == None && recommender.engine == engine
                && recommender.config == RecommenderConfig(Lookup(Merge(options), "minScore"), Lookup(Merge(options), "maxRelations"))
      ensures api.loaders == old(api.loaders) + (if recommender != null then [this] else [])
    {
      this.api := api;
      this.options := Merge(options);
      settings := SettingsOf(Merge(options));
      events := [];
      var merged := Merge(options);
      if Truthy(Lookup(merged, "enabled")) {
        recommender := new Recommender(RecommenderConfig(Lookup(merged, "minScore"), Lookup(merged, "maxRelations")), engine);
      } else {
        recommender := null;
      }
      new;
      if recommender != null {
        api.loaders := api.loaders + [this];
      }
    }

    /** `loadSource(actions)`. */
    method LoadSource(store: Store, draws: seq<nat>) returns (outcome: LoadOutcome)
      requires recommender != null && store.Valid()
      modifies this`events, recommender, store
      ensures store.Valid()
      ensures var r := LoadSourceSpec(settings, recommender.config, recommender.engine, old(store.collections), draws);
              outcome == r.outcome && store.collections == r.world && events == old(events) + r.events
    ensures var r := LoadSourceSpec(settings, recommender.config, recommender.engine, old(store.collections), draws);
            recommender.training == if r.events == [] then old(recommender.training) else Some(r.events[0].training)
    {
      ghost var world := store.collections;
      if !store.Has(settings.typeName) {
        return Failed(CollectionNotFound(settings.typeName));
      }
      var ok;
      if settings.reference.Some? {
        var referenceCollection := if store.Has(settings.reference.value) then Some(settings.reference.value) else None;
        ok := TrainBidirectional(store, settings.typeName, referenceCollection);
      } else {
        ok := Train(store, settings.typeName);
      }
      if !ok {
        return Failed(TypeError);
      }
      ghost var training := TrainingOf(settings, world).value;
      assert recommender.training == Some(training);
      outcome := CreateRelations(store, draws);
      AppendAssoc(old(events), [Trained(training)], Passes(settings, recommender.Trained(), world, draws).events);
    }

    /** Lines 131-132 and 136 of `loadSource`: the relation pass over the
        primary collection and, in two-collection mode, the reference pass. */
    method CreateRelations(store: Store, draws: seq<nat>) returns (outcome: LoadOutcome)
      requires recommender != null && recommender.training.Some? && store.Valid() && store.Has(settings.typeName)
      requires settings.reference.Some? ==> store.Has(settings.reference.value)
      modifies this`events, store
      ensures store.Valid()
      ensures var r := Passes(settings, recommender.Trained(), old(store.collections), draws);
              outcome == r.outcome && store.collections == r.world && events == old(events) + r.events
    {
      ghost var world := store.collections;
      ghost var e0 := events;
      var rest := CreateCollectionRelations(store, settings.typeName, false, draws);
      if rest.None? {
        return Hung;
      }
      if settings.reference.None? {
        return Finished;
      }
      ghost var world1 := store.collections;
      ghost var p1 := RunPass(settings, recommender.Trained(), world[settings.typeName], false, draws);
      var rest2 := CreateCollectionRelations(store, settings.reference.value, true, rest.value);
      ghost var p2 := RunPass(settings, recommender.Trained(), world1[settings.reference.value], true, rest.value);
      AppendAssoc(e0, Updates(settings.typeName, p1.updated), Updates(settings.reference.value, p2.updated));
      outcome := if rest2.Some? then Finished else Hung;
    }

    /** `train(collection)`; false when converting a node threw. */
    method Train(store: Store, collection: string) returns (ok: bool)
      requires recommender != null && store.Valid() && store.Has(collection)
      modifies this`events, recommender
      ensures var docs := ConvertAll(store.Data(collection), settings.field, settings.caseSensitive);
              && ok == docs.Success?
              && (ok ==> recommender.training == Some(Single(docs.value))
                         && events == old(events) + [Trained(Single(docs.value))])
              && (!ok ==> recommender.training == old(recommender.training) && events == old(events))
    {
      var docs := ConvertAll(store.Data(collection), settings.field, settings.caseSensitive);
      if docs.Failure? {
        return false;
      }
      recommender.Train(docs.value);
      events := events + [Trained(Single(docs.value))];
      return true;
    }

    /** `trainBidirectional(collection, referenceCollection)`; false when
        converting a node threw or the reference collection does not exist. */
    method TrainBidirectional(store: Store, collection: string, referenceCollection: Option<string>) returns (ok: bool)
      requires recommender != null && store.Valid() && store.Has(collection)
      requires referenceCollection.Some? ==> store.Has(referenceCollection.value)
      modifies this`events, recommender
      ensures var docs := ConvertAll(store.Data(collection), settings.field, settings.caseSensitive);
              var refDocs := if referenceCollection.Some?
                             then ConvertAll(store.Data(referenceCollection.value), settings.referenceField, settings.caseSensitive)
                             else Failure(TypeError);
              && ok == (docs.Success? && refDocs.Success?)
              && (ok ==> recommender.training == Some(Bidirectional(docs.value, refDocs.value))
                         && events == old(events) + [Trained(Bidirectional(docs.value, refDocs.value))])
              && (!ok ==> recommender.training == old(recommender.training) && events == old(events))
    {
      var docs := ConvertAll(store.Data(collection), settings.field, settings.caseSensitive);
      if docs.Failure? || referenceCollection.None? {
        return false;
      }
      var refDocs := ConvertAll(store.Data(referenceCollection.value), settings.referenceField, settings.caseSensitive);
      if refDocs.Failure? {
        return false;
      }
      recommender.TrainBidirectional(docs.value, refDocs.value);
      events := events + [Trained(Bidirectional(docs.value, refDocs.value))];
      return true;
    }

    /** `createCollectionRelations(collection, context, actions, reversed)`;
        None when a backfill never stopped. */
    method CreateCollectionRelations(store: Store, collection: string, reversed: bool, draws: seq<nat>)
      returns (rest: Option<seq<nat>>)
      requires recommender != null && recommender.training.Some? && store.Valid() && store.Has(collection)
      modifies this`events, store
      ensures store.Valid()
      ensures var c := old(store.collections[collection]);
              var p := RunPass(settings, recommender.Trained(), c, reversed, draws);
              && store.collections == old(store.collections)[collection := c.(nodes := p.nodes)]
              && rest == p.rest
              && events == old(events) + Updates(collection, p.updated)
    {
      var ix := recommender.Trained();
      var data := store.Data(collection);
      ghost var c := store.collections[collection];
      assert IdsOfNodes(data) == c.order;
      ghost var target := RunPass(settings, ix, c, reversed, draws);
      rest := RelateAll(store, collection, ix, data, reversed, draws, target);
    }

    /** `data.forEach(...)` over a snapshot of the collection: every node in
        turn, until the backfill of one never stops. */
    method RelateAll(store: Store, collection: string, ix: Index, data: seq<Node>, reversed: bool, draws: seq<nat>,
                     ghost target: PassResult)
      returns (rest: Option<seq<nat>>)
      requires store.Valid() && store.Has(collection)
      requires store.collections[collection].order == IdsOfNodes(data)
      requires forall i :: 0 <= i < |data| ==> data[i].id in store.collections[collection].nodes
      requires PassFrom(settings, ix, data, 0, store.collections[collection].nodes, reversed, draws, []) == target
      modifies this`events, store
      ensures store.Valid()
      ensures store.collections == old(store.collections)[collection := old(store.collections[collection]).(nodes := target.nodes)]
      ensures rest == target.rest
      ensures events == old(events) + Updates(collection, target.updated)
    {
      ghost var c := store.collections[collection];
      ghost var e0 := events;
      var d := draws;
      var k := 0;
      ghost var updated: seq<Id> := [];
      assert Updates(collection, updated) == [];
      while k < |data|
        invariant 0 <= k <= |data|
        invariant store.Valid() && store.Has(collection)
        invariant store.collections == old(store.collections)[collection := c.(nodes := store.collections[collection].nodes)]
        invariant forall i :: 0 <= i < |data| ==> data[i].id in store.collections[collection].nodes
        invariant PassFrom(settings, ix, data, k, store.collections[collection].nodes, reversed, d, updated) == target
        invariant events == e0 + Updates(collection, updated)
      {
        UpdatesAppend(e0, collection, updated, data[k].id);
        ghost var before := store.collections[collection];
        var next := RelateNode(store, collection, ix, data, k, reversed, d, updated);
        UpdateTwice(old(store.collections), collection, before, c.(nodes := store.collections[collection].nodes));
        if next.None? {
          return None;
        }
        updated := updated + [data[k].id];
        d := next.value;
        k := k + 1;
      }
      return Some(d);
    }

    /** The callback `createCollectionRelations` runs for the k-th node of
        `data`: fetch the node's relations, backfill them when the options ask
        for it, and write them onto the node; this is one step of the pass.
        None when the backfill never stopped, in which case the node is not
        written. */
    method RelateNode(store: Store, collection: string, ix: Index, data: seq<Node>, k: nat, reversed: bool,
                      draws: seq<nat>, ghost updated: seq<Id>)
      returns (rest: Option<seq<nat>>)
      requires store.Valid() && store.Has(collection) && k < |data|
      requires store.collections[collection].order == IdsOfNodes(data)
      requires forall i :: 0 <= i < |data| ==> data[i].id in store.collections[collection].nodes
      modifies this`events, store
      ensures store.Valid() && store.Has(collection)
      ensures var c := old(store.collections[collection]);
              store.collections == old(store.collections)[collection := c.(nodes := store.collections[collection].nodes)]
      ensures forall i :: 0 <= i < |data| ==> data[i].id in store.collections[collection].nodes
      ensures var nodes := old(store.collections[collection].nodes);
              PassFrom(settings, ix, data, k, nodes, reversed, draws, updated)
              == if rest.None? then PassResult(nodes, updated, None)
                 else PassFrom(settings, ix, data, k + 1, store.collections[collection].nodes, reversed, rest.value, updated + [data[k].id])
      ensures rest.None? ==> store.collections == old(store.collections) && events == old(events)
      ensures rest.Some? ==>
                var nr := NodeRelations(settings, FetchDocumentRelations(ix, data[k].id, settings.maxRelations), IdsOfNodes(data), data[k].id, draws);
                && nr.Sampled?
                && store.collections[collection].nodes
                   == old(store.collections[collection].nodes)[data[k].id := NodeUpdate(settings, data[k], nr.relations, reversed)]
      ensures rest.Some? ==> events == old(events) + [Updated(collection, data[k].id)]
    {
      var node := data[k];
      var relations := FetchDocumentRelations(ix, node.id, settings.maxRelations);
      ghost var nr := NodeRelations(settings, relations, IdsOfNodes(data), node.id, draws);
      var d := draws;
      if settings.fillWithRandom && Below(|relations|, settings.minRelations) {
        var filled := FillWithRandomRelations(store, collection, relations, node.id, draws);
        if filled.Unfinished? {
          return None;
        }
        relations, d := filled.relations, filled.rest;
      }
      assert nr == Sampled(relations, d);
      CreateNodeRelations(store, collection, node, relations, reversed);
      return Some(d);
    }

    /** `fillWithRandomRelations(collection, relations, id)`. */
    method FillWithRandomRelations(store: Store, collection: string, relations: seq<Relation>, excludedId: Id, draws: seq<nat>)
      returns (out: Filling)
      requires store.Valid() && store.Has(collection) && |store.collections[collection].order| > 0
      ensures out == FillWithRandom(settings.minRelations, store.collections[collection].order, relations, excludedId, draws)
    {
      var missing := Minus(settings.minRelations, |relations|);
      var fillers := ArraySubsetExcluding(store, collection, relations, missing, excludedId, draws);
      if fillers.Unfinished? {
        return Unfinished;
      }
      return Sampled(relations + fillers.relations, fillers.rest);
    }

    /** `createNodeRelations(collection, store, node, relations, reversed)`. */
    method CreateNodeRelations(store: Store, collection: string, node: Node, relations: seq<Relation>, reversed: bool)
      requires store.Valid() && store.Has(collection) && node.id in store.collections[collection].nodes
      modifies this`events, store
      ensures store.Valid()
      ensures var c := old(store.collections[collection]);
              store.collections == old(store.collections)[collection := c.(nodes := c.nodes[node.id := NodeUpdate(settings, node, relations, reversed)])]
      ensures events == old(events) + [Updated(collection, node.id)]
    {
      var key := RelatedKey(settings, reversed);
      var references := References(TargetType(settings, reversed), relations);
      var update := WithField(node, key, Arr(references));
      store.UpdateNode(collection, update);
      events := events + [Updated(collection, node.id)];
    }
  }
}
