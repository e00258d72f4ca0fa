/** Documents handed to the similarity engine, the relations it answers with,
    and the engine itself as an arbitrary function of what it was trained on. */
module Documents {
  import opened Js
  import opened Host

  /** Errors the relation run raises after the options were accepted. */
  datatype RunError =
    | CollectionNotFound(typeName: string)
    /** a JavaScript TypeError: a method called on a value that lacks it */
    | TypeError

  /** `{id, content}` as built by `convertNodeToDocument`. */
  datatype Document = Document(id: Id, content: Value)

  /** `{id, score}` as returned by the engine's `getSimilarDocuments`. */
  datatype Similarity = Similarity(id: Id, score: real)

  /** One entry of a node's relation list: an engine result carries its score,
      a random filler carries none. */
  datatype Relation = Relation(id: Id, score: Option<real>)

  function Scored(s: Similarity): Relation
  {
    Relation(s.id, Some(s.score))
  }

  function Filler(id: Id): Relation
  {
    Relation(id, None)
  }

  /** `convertNodeToDocument(node, field)`. */
  function ConvertNodeToDocument(node: Node, field: string): Document
  {
    Document(node.id, Field(node, field))
  }

  /** `convertDocument(node, field)`: the content is lower-cased when the
      caseSensitive option is truthy; lower-casing anything but a string is a
      TypeError. */
  function ConvertDocument(node: Node, field: string, caseSensitive: bool): (r: Result<Document, RunError>)
    ensures r.Success? <==> !caseSensitive || Field(node, field).Str?
    ensures r.Failure? ==> r.error == TypeError
    ensures r.Success? ==> r.value.id == node.id
    ensures !caseSensitive ==> r.Success? && r.value.content == Field(node, field)
    ensures caseSensitive && r.Success? ==> r.value.content == Str(ToLowerCase(Field(node, field).s))
  {
    var doc := ConvertNodeToDocument(node, field);
    if caseSensitive then
      if doc.content.Str? then Success(doc.(content := Str(ToLowerCase(doc.content.s))))
      else Failure(TypeError)
    else Success(doc)
  }

  /** The case flag is inverted: asking for case-insensitive matching keeps
      upper-case letters, and asking for case-sensitive matching removes them. */
  lemma CaseFlagInverted(node: Node, field: string, i: nat)
    requires Field(node, field).Str? && i < |Field(node, field).s| && IsUpper(Field(node, field).s[i])
    ensures ConvertDocument(node, field, false).value.content.s[i] == Field(node, field).s[i]
    ensures ConvertDocument(node, field, true).value.content.s[i] != Field(node, field).s[i]
  {
  }

  /** `collection.data().map(node => convertDocument(node, field))`: the first
      node whose conversion throws aborts the whole map. */
  function ConvertAll(nodes: seq<Node>, field: string, caseSensitive: bool): (r: Result<seq<Document>, RunError>)
    ensures r.Success? <==> forall i :: 0 <= i < |nodes| ==> ConvertDocument(nodes[i], field, caseSensitive).Success?
    ensures r.Failure? ==> r.error == TypeError
    ensures r.Success? ==> |r.value| == |nodes|
    ensures r.Success? ==> forall i :: 0 <= i < |nodes| ==> r.value[i] == ConvertDocument(nodes[i], field, caseSensitive).value
  {
    if nodes == [] then Success([])
    else
      match ConvertDocument(nodes[0], field, caseSensitive)
      case Failure(e) => Failure(e)
      case Success(d) =>
        match ConvertAll(nodes[1..], field, caseSensitive)
        case Failure(e) => Failure(e)
        case Success(ds) => Success([d] + ds)
  }

  /** Without lower-casing, converting a collection never throws. */
  lemma ConvertAllCaseInsensitive(nodes: seq<Node>, field: string)
    ensures ConvertAll(nodes, field, false).Success?
  {
    forall i | 0 <= i < |nodes| ensures ConvertDocument(nodes[i], field, false).Success? {
    }
  }

  /** What the engine was last trained on. */
  datatype Training =
    | Single(docs: seq<Document>)
    | Bidirectional(docs: seq<Document>, referenceDocs: seq<Document>)

  /** The options the engine was constructed with. */
  datatype RecommenderConfig = RecommenderConfig(minScore: Value, maxSimilarDocuments: Value)

  /** One `getSimilarDocuments(id, minScore, maxResults)` call on a trained engine. */
  datatype EngineCall = EngineCall(config: RecommenderConfig, training: Training, id: Id, minScore: real, maxResults: Value)

  /** A trained engine: the engine's answers are an arbitrary function of the call. */
  datatype Index = Index(config: RecommenderConfig, engine: EngineCall -> seq<Similarity>, training: Training)

  function Answers(ix: Index, id: Id, maxResults: Value): seq<Similarity>
  {
    ix.engine(EngineCall(ix.config, ix.training, id, 0.0, maxResults))
  }

  /** Each engine result as a relation carrying its score. */
  function ScoredAll(sims: seq<Similarity>): (r: seq<Relation>)
    ensures |r| == |sims|
    ensures forall i :: 0 <= i < |r| ==> r[i].id == sims[i].id && r[i].score == Some(sims[i].score)
  {
    seq(|sims|, i requires 0 <= i < |sims| => Scored(sims[i]))
  }

  /** `fetchDocumentRelations(id)`: asks the engine with a minimum score of 0
      (not the configured one) and at most `maxRelations` results, and keeps the
      engine's list as it is, each entry with its score. */
  function FetchDocumentRelations(ix: Index, id: Id, maxRelations: Value): (r: seq<Relation>)
    ensures |r| == |Answers(ix, id, maxRelations)|
    ensures forall i :: 0 <= i < |r| ==>
              r[i].id == Answers(ix, id, maxRelations)[i].id && r[i].score == Some(Answers(ix, id, maxRelations)[i].score)
  {
    ScoredAll(Answers(ix, id, maxRelations))
  }
}
