# Recommender plugin for Gridsome: a Dafny model

This project models the relation-assignment core of the Gridsome recommender
plugin (`RecommenderPlugin` in `gridsome.server.js`). At build time the plugin
trains a content-based similarity engine on one field of every node of a
collection, asks the engine for each node's most similar nodes, and writes them
back onto the node as references. If the engine finds too few, it can top the
list up with random nodes.

The model covers these steps:

- **Construction**: option validation, the merge of the caller's options over the defaults, and the `enabled` gate.
- **`loadSource`**: the lookup of the primary collection, the single- and two-collection dispatch, and training.
- **`createCollectionRelations`**: one relation pass over a collection.
- **The backfill**: `fillWithRandomRelations` and its random do-while loop `getArraySubsetExcluding`.
- **`createNodeRelations`**: the write of one node's relation field.

Modules, in dependency order:

| file | module | what it holds |
|---|---|---|
| `js.dfy` | `Js` | The JavaScript value semantics the plugin relies on: truthiness, ToNumber, lodash `inRange`, `Math.min`, number-minus-length, and ASCII `toLowerCase`. |
| `options.dfy` | `PluginOptions` | The default options, `Object.assign` over them, `validateOptions`, and the typed view of the merged options. |
| `host.dfy` | `Host` | The host store, as a class whose field maps each type name to its collection (node order and nodes by id), with `data()` and `updateNode`. |
| `documents.dfy` | `Documents` | Documents, engine results and relations; `convertDocument`, the training map and `fetchDocumentRelations`. The engine is an arbitrary function of what it was trained on. |
| `sampling.dfy` | `Sampling` | The backfill loop as a function of a sequence of random draws, what it guarantees, when it can and cannot stop, and the loop itself as a method. |
| `relations.dfy` | `Relations` | The backfill decision, the written node, and one pass over a collection (`PassFrom`) with its properties. |
| `dispatch.dfy` | `Dispatch` | What `loadSource` does, as a function of the store's collections: training, then the primary pass, then the reference pass. Also its properties. |
| `plugin.dfy` | `Plugin` | The plugin object. Its methods update the store in place and are proved against the functions of `Dispatch` and `Relations`. |

`Math.random` becomes an oracle: a sequence of natural numbers. The k-th
draw picks `nodes[draws[k] % nodes.length]`. The backfill loop may never stop,
so a run that consumes every draw before the loop ends is reported as
`Unfinished` (in a pass) or `Hung` (for `loadSource`). This does not say
the program stops there: it says no finite prefix of random numbers ends
the loop.

The code sometimes does not do what its option names, its default values
and its comments lead a user to expect. This model follows the code in each case:

- **Lower-casing.** The name `caseSensitive` and its default `false` (line 78) suggest content is lower-cased when the option is false. The code lower-cases when it is truthy (line 183).
- **Reference field.** The comment on `referenceField` (lines 42-46) calls it required when a reference collection is set, and the message on line 107 says so too. That check repeats the `field` check of line 106, so it never fires.
- **Numeric defaults.** `defaultOptions` gives defaults for `minScore`, `maxScore`, `maxRelations` and `minRelations` (lines 60-72). Validation (lines 108-111) runs on the caller's options before the merge on line 86, so leaving any of them out is rejected. A truthy out-of-range value such as `minScore: 5` is accepted.
- **Missing field.** A node without the configured field becomes a document whose content is `undefined` (line 199). This throws a TypeError only when it is lower-cased (line 183).
- **Backfill termination.** The comment on `fillWithRandom` (lines 73-76) says relations are always filled up to `minRelations`. The loop can instead run forever: `numberFillers` (line 242) subtracts the relations found but not the current node. It can also stop short of `minRelations` when the collection is too small.
- **Target of references.** The comment on `referenceTypeName` (lines 27-32) says similarities are searched only in the opposite collection. Random fillers are drawn from the collection being passed over and typed by line 275 like the engine's answers. On the primary pass they are primary nodes typed with the reference collection's name; on the reversed pass they are reference nodes typed with the primary's name.
- **Missing reference collection.** It is not reported as missing: line 128 re-tests the primary collection. Calling `data()` on the missing collection throws a TypeError (line 174).

## Model

| member | source | states |
|---|---|---|
| Js.FalsyInRange | gridsome.server.js:108-111 | For a falsy value, lodash `inRange(v, 0, end)` holds exactly when the value is not undefined and not NaN. |
| Js.Minus | gridsome.server.js:222 | `minRelations - relations.length` is finite exactly when `minRelations` is, and adding the length back gives `minRelations`. |
| Js.Min | gridsome.server.js:242 | `Math.min` is NaN when either argument is. Otherwise it is one of the two arguments and no greater than either. |
| Js.ToLowerCase | gridsome.server.js:183 | The result has the same length and no upper-case letter. A non-upper character is kept, and an upper-case letter becomes its lower-case letter. |
| Js.ToLowerCaseIdempotent | gridsome.server.js:183 | Lower-casing twice is lower-casing once. |
| Js.LowerCaseFixed | gridsome.server.js:183 | A string without upper-case letters is left unchanged by lower-casing. |
| PluginOptions.Merge | gridsome.server.js:86 | The merged options have the keys of both objects. Every key the caller supplied keeps the caller's value, even undefined; every other key has the default value. |
| PluginOptions.DefaultOptions | gridsome.server.js:17-81 | Every default bound passes its range check. `typeName`, `field`, `referenceTypeName` and `referenceField` have no (truthy) default, so the caller must supply them. The individual defaults are stated by the three `MergeDefault` lemmas. |
| PluginOptions.MergeDefaultFlags | gridsome.server.js:17-81 | An omitted `enabled` is true, and an omitted `fillWithRandom`, `caseSensitive` or `debug` is false. |
| PluginOptions.MergeDefaultFieldNames | gridsome.server.js:17-81 | An omitted `relatedFieldName` or `referenceRelatedFieldName` is "related". |
| PluginOptions.MergeDefaultBounds | gridsome.server.js:17-81 | Omitted bounds take the documented defaults: `minScore` 0.01, `maxScore` 1, `maxRelations` 10, `minRelations` 3. |
| PluginOptions.ValidateOptions | gridsome.server.js:103-113 | Undefined options are rejected, and so is a falsy `typeName`. A falsy `field` is rejected after a truthy `typeName`. The options pass exactly when `typeName` and `field` are truthy and no range check fails. |
| PluginOptions.ReferenceFieldNeverChecked | gridsome.server.js:107 | The reference-field error is never raised. A reference collection without a reference field passes validation. |
| PluginOptions.RangeCheckOnlyFalsy | gridsome.server.js:108-111 | A range check fails exactly when the option is undefined or NaN. Every truthy value and every falsy value that coerces to 0 passes. |
| PluginOptions.OmittedMinScoreRejected | gridsome.server.js:104-108 | Valid `typeName` and `field` with `minScore` left out are rejected with the `minScore` range error, although `minScore` has a default. |
| PluginOptions.OmittedMinRelationsRejected | gridsome.server.js:108-111 | With the earlier checks passing, leaving out `minRelations` is rejected with the `minRelations` range error. |
| PluginOptions.TruthyOutOfRangeAccepted | gridsome.server.js:108-111 | `minScore = 5` passes validation when the other checked options are truthy. |
| PluginOptions.SettingsOf | gridsome.server.js:126-143 | The plugin is in two-collection mode exactly when `referenceTypeName` is truthy. Backfill is requested exactly when `fillWithRandom` is truthy. |
| Host.WithField | gridsome.server.js:269-270 | The shallow copy keeps the id, has the assigned value under the key, and keeps every other field. |
| Host.NodesAt | gridsome.server.js:141 | The nodes are listed in the given order, one per id. |
| Host.Snapshot | gridsome.server.js:141 | `data()` lists one node per id of the collection's order, each carrying its id. |
| Host.Store.Data | gridsome.server.js:241 | `collection.data()` has one node per id of the collection's order, as the snapshot gives them. |
| Host.Store.UpdateNode | gridsome.server.js:279 | `updateNode` replaces the stored node with the same id and changes nothing else. |
| Documents.ConvertDocument | gridsome.server.js:181-185 | Conversion succeeds exactly when `caseSensitive` is false or the field holds a string. A failure is a TypeError. The id is kept. When `caseSensitive` is false, the content is the field's value unchanged; otherwise it is the lower-cased string. |
| Documents.ConvertNodeToDocument | gridsome.server.js:196-201 | The document of a node: its id and the configured field's value, undefined when absent. Its properties are stated through `ConvertDocument`. |
| Documents.CaseFlagInverted | gridsome.server.js:183 | An upper-case letter is kept when `caseSensitive` is false and changed when it is true. |
| Documents.ConvertAll | gridsome.server.js:158-160 | The map succeeds exactly when every node converts, and then yields one document per node, in order. Otherwise it is a TypeError. |
| Documents.ConvertAllCaseInsensitive | gridsome.server.js:158-160 | Without lower-casing, converting a collection never throws. |
| Documents.ScoredAll | gridsome.server.js:209-211 | Each engine result becomes a relation with the same id and its score, in order. |
| Documents.FetchDocumentRelations | gridsome.server.js:209-211 | The relations are the engine's answers to the node's id, asked with minimum score 0 and `maxRelations` results: same length, ids and scores, in the engine's order. |
| Sampling.SampleSound | gridsome.server.js:249-255 | Loop invariant and exit of the do-while. The fillers collected so far are kept as a prefix. New ones are pairwise distinct, come from the collection and were not yet excluded. A loop that stops has reached `numberFillers`, overshooting by less than one. |
| Sampling.Sample | gridsome.server.js:249-255 | One run of the do-while from a given state, on a sequence of draws. Its invariant and exit are `SampleSound`, and its termination is `SampleCanFinish` and `SamplingCannotFinish`. |
| Sampling.SubsetExcluding | gridsome.server.js:240-258 | `getArraySubsetExcluding` on the collection's ids. What it returns is `SubsetExcludingSound`; when it stops is `SamplingCannotFinish` and `SamplingCanFinish`. The imperative loop is proved equal to it by `ArraySubsetExcluding`. |
| Sampling.SubsetExcludingSound | gridsome.server.js:240-258 | A run that stops returns fillers without score that are pairwise distinct and come from the collection. None is the current node or a relation already found. There are `numberFillers` of them (rounded up) when that is positive, and at most one otherwise. |
| Sampling.SamplingCannotFinish | gridsome.server.js:242-255 | When `numberFillers` exceeds the nodes left to draw, no sequence of draws ends the loop. |
| Sampling.SampleCanFinish | gridsome.server.js:249-255 | When enough undrawn nodes are left, some sequence of draws ends the loop. |
| Sampling.SamplingCanFinish | gridsome.server.js:240-258 | When `numberFillers` is positive and at most the number of eligible nodes, some sequence of draws makes the loop stop. |
| Sampling.ThreeNodesNeverFinish | gridsome.server.js:240-258 | Three nodes, no engine relations and three missing: the backfill never stops. |
| Sampling.NoFillersAskedOneReturned | gridsome.server.js:249-255 | With `numberFillers` at 0, the do-while body still runs once and returns one filler. |
| Sampling.ArraySubsetExcluding | gridsome.server.js:240-258 | The imperative loop (hash set, result list, counter) returns exactly what the sampling function gives for the same draws. |
| Relations.FillWithRandomSound | gridsome.server.js:221-229 | The relations found stay first and unchanged. The appended fillers have no score, are pairwise distinct and come from the collection. None is the node itself or a relation found. Their number is `numberFillers` = min(collection size - found, `minRelations` - found), rounded up, when that is positive, and at most one otherwise. |
| Relations.FillWithRandom | gridsome.server.js:221-229 | It stops exactly when the backfill loop stops. The relations found stay first, followed by exactly the loop's fillers, asked for as `minRelations - found`; the loop's unused draws are kept. |
| Relations.BackfillReachesMinRelations | gridsome.server.js:221-229 | For an integral `minRelations` no larger than the collection, a backfill that stops gives exactly `minRelations` relations. |
| Relations.Backfill | gridsome.server.js:143 | The backfill condition: `fillWithRandom` truthy and fewer relations than `minRelations` by JavaScript's `<`. `NodeRelations` and `NodeRelationsWellFormed` state its effect. |
| Relations.NodeRelations | gridsome.server.js:142-147 | Without a backfill, a node's list is the engine's list and no draw is used. With one, the list is exactly `FillWithRandom`'s result: the engine's list first, topped up by the loop's fillers. |
| Relations.NodeRelationsWellFormed | gridsome.server.js:142-147 | If the engine's list has distinct ids and lacks the node, so does the final list. The list grows only when a backfill was asked for. |
| Relations.NodeRelationsListed | gridsome.server.js:142-147 | Every list a node settles on is a relation list of that node. The engine's answers come first. Fillers appear only after a backfill. They have no score, are pairwise distinct, come from the collection, and are neither the node nor an engine answer. A backfill asking for a positive `numberFillers` adds that many (rounded up), and at most one otherwise. The list is distinct and self-free when the engine's answers are. |
| Relations.NodeUpdateRelated | gridsome.server.js:142-148 | The node written from the list a node settles on carries its relation field, written from a relation list of that node, and keeps its other fields. |
| Relations.References | gridsome.server.js:270-278 | One reference per relation, in order, with the given type and the relation's id. |
| Relations.TargetType | gridsome.server.js:275 | The type the references are created with. `FieldAndTypeSelection` states the choice. |
| Relations.RelatedKey | gridsome.server.js:270 | The field the references are written into. `FieldAndTypeSelection` states the choice. |
| Relations.NodeUpdate | gridsome.server.js:268-280 | The updated node keeps its id and every other field. The relation field holds the references. |
| Relations.FieldAndTypeSelection | gridsome.server.js:270-277 | A forward pass writes `relatedFieldName`, with references typed as the reference collection in two-collection mode and as the primary otherwise. A reversed pass writes `referenceRelatedFieldName` with the primary type. There is one reference per relation, in order. |
| Relations.NodeUpdateWritten | gridsome.server.js:268-280 | The updated node keeps its id and other fields, and its relation field is an array of references of the pass's target type. |
| Relations.FillersTypedAsReference | gridsome.server.js:143-145 | In two-collection mode a primary node's filler is a node of the primary collection. It is written as a reference typed with the reference collection's name. |
| Relations.FillersTypedAsPrimary | gridsome.server.js:143-145 | In two-collection mode a reference node's filler is a node of the reference collection, written as a reference typed with the primary's name. |
| Relations.IdsOfNodes | gridsome.server.js:141 | The ids of the nodes, in order. |
| Relations.PassFrom | gridsome.server.js:140-150 | The pass from a given node on, as a function of the current nodes and the draws. Its properties are `PassKeepsNodes`, `PassUpdatesInOrder`, `PassFinishesIffAllUpdated`, `PassWritesEveryNode` and `PassLeavesOthers`. `RelateAll` is proved against it. |
| Relations.PassKeepsNodes | gridsome.server.js:140-150 | A pass neither adds nor removes a node, and every node keeps its id. |
| Relations.PassUpdatesInOrder | gridsome.server.js:140-150 | The `updateNode` calls of a pass are the collection's nodes in order, each at most once. |
| Relations.PassFinishesIffAllUpdated | gridsome.server.js:140-150 | A pass finishes exactly when every node has been updated. |
| Relations.PassWritesEveryNode | gridsome.server.js:140-150 | After a pass that finishes over distinct ids, every node keeps its id and other fields. Its relation field holds one reference of the pass's type per entry of a relation list of that node. The engine's answers come first. After a backfill come `numberFillers` distinct fillers from the collection (rounded up), none the node itself. |
| Relations.PassWritesNode | gridsome.server.js:148 | The node at each position still to come is written by a pass that finishes, from a relation list of its own. |
| Relations.PassLeavesOthers | gridsome.server.js:140-150 | A node whose id the pass does not visit is left as it was, whether or not the pass finishes. |
| Dispatch.Updates | gridsome.server.js:141-148 | One `updateNode` event per id, in order. |
| Dispatch.RunPass | gridsome.server.js:140-150 | One `createCollectionRelations` pass over a collection's snapshot. Its properties are `RunPassWellFormed`, `RunPassInOrder` and `RunPassWritesEveryNode`; `CreateCollectionRelations` is proved against it. |
| Dispatch.RunPassWellFormed | gridsome.server.js:140-150 | A pass leaves the collection well formed, with the same ids in the same order. |
| Dispatch.RunPassInOrder | gridsome.server.js:140-150 | The updated ids are a prefix of the collection's order, and the whole order exactly when the pass finishes. |
| Dispatch.RunPassWritesEveryNode | gridsome.server.js:140-150 | After a pass that finishes, every node of the collection carries its relation field, written from a relation list of its own, and keeps its other fields. |
| Dispatch.Put | gridsome.server.js:279 | Replacing one collection by a well-formed state keeps the world well formed and every other collection unchanged. |
| Dispatch.TrainingOf | gridsome.server.js:126-134 | Training succeeds exactly when every primary node converts and, in two-collection mode, the reference collection exists and every node of it converts. Otherwise it is a TypeError. On success it trains on the converted primary documents, bidirectional exactly in two-collection mode, then also on the converted reference documents. |
| Dispatch.Passes | gridsome.server.js:130-134 | The relation passes leave every collection well formed. |
| Dispatch.LoadSourceSpec | gridsome.server.js:120-138 | A `loadSource` run leaves every collection well formed. |
| Dispatch.MissingCollectionThrows | gridsome.server.js:122-124 | When the primary collection is missing, the run throws "cannot be found" before training or writing anything. |
| Dispatch.MissingReferenceIsTypeError | gridsome.server.js:126-129 | When the reference collection is missing, the run ends in a TypeError rather than the "cannot be found" error, and trains and writes nothing. |
| Dispatch.FailedRunChangesNothing | gridsome.server.js:120-138 | A run throws exactly when it records no event, and then the collections are unchanged. |
| Dispatch.CaseInsensitiveRunTrains | gridsome.server.js:120-138 | With `caseSensitive` falsy and both collections present, a run never throws: it trains first and reaches the relation passes. |
| Dispatch.TrainingPrecedesUpdates | gridsome.server.js:126-134 | A run's first event is the training, bidirectional exactly in two-collection mode. Every later event is a node update. |
| Dispatch.PassesOnlyUpdate | gridsome.server.js:131-134 | The passes record only node updates. |
| Dispatch.PassesKeepOrders | gridsome.server.js:131-134 | The passes keep every collection and every collection's node order. |
| Dispatch.PassesTouchOnlyTheirCollections | gridsome.server.js:131-134 | A collection that is neither the primary nor the reference one is unchanged. |
| Dispatch.PassesUpdateInOrder | gridsome.server.js:131-134 | The updates follow the primary collection in order, then the reference collection in order. They cover every node exactly when the passes finish. |
| Dispatch.PassesWriteEveryNode | gridsome.server.js:131-134 | After passes that finish, every primary node carries `relatedFieldName`, typed as the reference collection in two-collection mode. With two distinct collections, every reference node carries `referenceRelatedFieldName`, typed as the primary. Each field holds the references of a relation list of its node. |
| Dispatch.RunUpdatesInOrder | gridsome.server.js:120-138 | A run that does not throw found its collections and trained first. Then it updated a prefix of the primary nodes followed by the reference nodes, all of them exactly when it finished. |
| Plugin.Recommender.constructor | gridsome.server.js:90-93 | The engine is created with the given options and is not yet trained. |
| Plugin.Recommender.Train | gridsome.server.js:162 | The engine is trained on the given documents. |
| Plugin.Recommender.TrainBidirectional | gridsome.server.js:178 | The engine is trained on both document lists. |
| Plugin.NewPlugin | gridsome.server.js:83-96 | Construction throws exactly when validation fails, with its error, and registers nothing. Otherwise the options and settings are the merge over the defaults. A recommender exists and `loadSource` is registered exactly when `enabled` is truthy. A recommender is new and untrained, uses the given engine, and takes `minScore` and `maxRelations` as its thresholds. |
| Plugin.RecommenderPlugin.constructor | gridsome.server.js:83-96 | The options are merged over the defaults. Only an enabled plugin creates its engine (with `minScore` and `maxRelations` as `maxSimilarDocuments`) and registers its loader. |
| Plugin.RecommenderPlugin.LoadSource | gridsome.server.js:120-138 | Outcome, new store and events equal `LoadSourceSpec` of the old store. The recommender is left as it was when the run throws; otherwise it is trained on what the run's first event records. |
| Plugin.RecommenderPlugin.CreateRelations | gridsome.server.js:130-134 | Outcome, new store and events equal the relation passes of the old store. |
| Plugin.RecommenderPlugin.Train | gridsome.server.js:157-163 | The engine is trained on the converted primary documents exactly when every node converts; otherwise nothing changes. |
| Plugin.RecommenderPlugin.TrainBidirectional | gridsome.server.js:170-179 | The engine is trained on both converted lists exactly when the reference collection exists and every node of both converts; otherwise nothing changes. |
| Plugin.RecommenderPlugin.CreateCollectionRelations | gridsome.server.js:140-150 | The store, the unused draws and the update events equal one relation pass over the old collection; no other collection changes. |
| Plugin.RecommenderPlugin.RelateAll | gridsome.server.js:141-149 | The `forEach` loop over the snapshot reaches the state of the pass it is proved against. |
| Plugin.RecommenderPlugin.RelateNode | gridsome.server.js:141-149 | One step of the pass. A stuck backfill writes nothing. Otherwise exactly this node is replaced, by the node with the references of its relation list (the engine's answers, backfilled when asked). The pass then continues from the next node. |
| Plugin.RecommenderPlugin.FillWithRandomRelations | gridsome.server.js:221-229 | The result is exactly `FillWithRandom` of the same draws: the relations found, followed by the `numberFillers` fillers of the backfill loop. |
| Plugin.RecommenderPlugin.CreateNodeRelations | gridsome.server.js:268-280 | Exactly this node is replaced, by the node with its relation field written, and one update event is recorded. |

## Left out

- **The similarity engine.** `content-based-recommender` is a foreign package. Its answers are an arbitrary function of its options, its training and the query, so nothing is assumed about their order, scores or length.
- **Randomness.** The distribution of `Math.random` is not modelled. The draws are an oracle sequence, and a loop that has not stopped when they run out is reported as unfinished. No claim is made about how likely a backfill is to stop.
- **Logging.** `log`, the `debug` option and the `console.log` on line 146 have no effect on the model.
- **Error messages.** The package name and the message strings of the errors are dropped; errors are datatype constructors.
- **The host.** Gridsome's store, collections and GraphQL schema are reduced to a map from type name to collection (node order and nodes by id). `createReference` is a value `Ref(typeName, id)`. `api.loadSource` is a list of registered plugins; the host calling the loader is `LoadSource` called directly.
- **Filler documents.** Each filler goes through `convertNodeToDocument` twice, with no field both times (lines 252 and 226), so its document's content ends as `undefined`. Only the filler's id is used afterwards, so the model keeps only the id.
- **Js.ToLowerCase**: only ASCII letters are lower-cased; Unicode case mapping is not modelled.
- **Js.ToNumber**: non-empty strings and arrays become NaN instead of being parsed. Infinity is not a modelled number.
- **Js.Key**: numbers and arrays used as property keys become fixed placeholder names, not their JavaScript string forms.
- **Node ids.** A field named `id` is not kept apart from the node's id, so writing relations into a field called `id` is not modelled.
- **Dispatch.PassesWriteEveryNode**: when `referenceTypeName` equals `typeName`, the second pass rewrites the same collection. That case is left out of its second clause, and of its first when a reference is set.
- **Example configuration.** The sample site configuration in the repository is not part of this model.
- **PluginOptions.ValidateOptions**: the options argument is either absent (undefined) or an object. A `null` argument, which throws a TypeError at line 105 rather than the `typeName` error, is not modelled.
