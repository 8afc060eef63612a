/**
 * The semantic index over a vector store (indexer.py): how records are turned into the
 * text that is embedded and the metadata that is stored, which embedding backend a model
 * name selects, the defaults of the index and of its collections, and the store calls that
 * indexing and searching issue. The store itself is not modelled: every call made to it
 * is recorded in `SemanticIndex.calls`.
 */
module Indexer {
  import opened Wrappers
  import opened PyStrings
  import opened PyValues
  import opened Steps

  const DefaultModel: string := "all-MiniLM-L6-v2"
  const DefaultPath: string := "./db"
  const DefaultMetadata: Record := [("hnsw:space", PyStr("cosine"))]
  const DefaultBatchSize: int := 500

  /** The `fields` argument of `get_description`. */
  datatype Fields =
    | NoFields                              // None
    | FieldCollection(names: seq<string>)   // a list, set or tuple of field names
    | FieldName(name: string)               // one field name
    | OtherFields                           // any other value

  /**
   * Stand-in for `yaml.safe_dump(d, sort_keys=False)`: one `key: value` line per item, in
   * order. The exact YAML text is not modelled; only which items are dumped, and in which order.
   */
  function YamlDump(d: Record): string {
    if d == [] then "{}\n" else DumpLines(d)
  }

  function DumpLines(d: Record): string {
    if d == [] then "" else d[0].0 + ": " + Str(d[0].1) + "\n" + DumpLines(d[1..])
  }

  /** The text block for a selection of items: the stripped dump. */
  function Block(items: Record): Value {
    PyStr(Strip(YamlDump(items)))
  }

  /** Whether `yaml.safe_dump` can represent a value: a class object cannot, at any depth. */
  predicate Representable(v: Value)
    decreases v
  {
    match v
    case PyType(_) => false
    case PyList(items) => forall i :: 0 <= i < |items| ==> Representable(items[i])
    case PyDict(entries) => forall i :: 0 <= i < |entries| ==> Representable(entries[i].1)
    case _ => true
  }

  /**
   * `yaml.safe_dump(items, sort_keys=False).strip()`: the block of the items, or the
   * `RepresenterError` the safe dumper raises on a value it cannot represent.
   */
  function Dump(items: Record): (r: Result<Value, Error>)
    ensures r.Err? <==> exists e :: e in items && !Representable(e.1)
    ensures r.Err? ==> r.error == RepresenterError("cannot represent an object")
    ensures r.Ok? ==> r.value == Block(items)
  {
    if forall i :: 0 <= i < |items| ==> Representable(items[i].1) then Ok(Block(items))
    else Err(RepresenterError("cannot represent an object"))
  }

  predicate TruthyItem(e: (string, Value)) {
    Truthy(e.1)
  }

  predicate SelectedItem(names: seq<string>, e: (string, Value)) {
    e.0 in names && Truthy(e.1)
  }

  /** `SemanticIndex.get_description(metadata, fields)`. */
  function GetDescription(metadata: Value, fields: Fields): (r: Result<Value, Error>)
    ensures r.Err? <==>
              || (fields.FieldCollection? && !metadata.PyDict?)
              || (fields.FieldName? && metadata.PyDict? && !HasKey(metadata.entries, fields.name))
              || (metadata.PyDict? && (fields.NoFields? || fields.FieldCollection?) &&
                  exists e :: e in metadata.entries && (fields.NoFields? || e.0 in fields.names) &&
                              Truthy(e.1) && !Representable(e.1))
    ensures fields.NoFields? && metadata.PyDict? ==> r == Dump(Filter(metadata.entries, TruthyItem))
    ensures fields.FieldCollection? && metadata.PyDict? ==>
              r == Dump(Filter(metadata.entries, e => SelectedItem(fields.names, e)))
    ensures fields.NoFields? && metadata.PyStr? ==> r == Ok(metadata)
    ensures fields.FieldName? && metadata.PyDict? && r.Ok? ==> (fields.name, r.value) in metadata.entries
    ensures r.Ok? && (fields.FieldCollection? || (fields.NoFields? && metadata.PyDict?)) ==> r.value.PyStr?
  {
    match fields
    case NoFields =>
      if metadata.PyDict? then Dump(Filter(metadata.entries, TruthyItem))
      else if metadata.PyStr? then Ok(metadata)
      else Ok(PyNone)
    case FieldCollection(names) =>
      if metadata.PyDict? then Dump(Filter(metadata.entries, e => SelectedItem(names, e)))
      else Err(AttributeError("items"))
    case FieldName(name) =>
      if metadata.PyDict? then
        match Get(metadata.entries, name)
        case Some(v) => Ok(v)
        case None => Err(KeyError(name))
      else Ok(PyNone)
    case OtherFields => Ok(PyNone)
  }

  /** Two filters that agree on every item keep the same items. */
  lemma {:induction false} FilterAgree(d: Record, f: ((string, Value)) -> bool, g: ((string, Value)) -> bool)
    requires forall e :: e in d ==> f(e) == g(e)
    ensures Filter(d, f) == Filter(d, g)
  {
    if d != [] {
      FilterAgree(d[1..], f, g);
    }
  }

  /** Filtering out an item the filter rejects is the same as never having it. */
  lemma FilterSkips(a: Record, x: (string, Value), b: Record, keep: ((string, Value)) -> bool)
    requires !keep(x)
    ensures Filter(a + [x] + b, keep) == Filter(a + b, keep)
  {
    FilterConcat(a + [x], b, keep);
    FilterConcat(a, [x], keep);
    FilterConcat(a, b, keep);
  }

  /**
   * A truthy item shows in a description, with no selection or when its key is selected,
   * between the kept items before it and the kept items after it.
   */
  lemma DescriptionShowsItem(a: Record, k: string, v: Value, b: Record, fields: Fields)
    requires Truthy(v)
    requires fields.NoFields? || (fields.FieldCollection? && k in fields.names)
    ensures fields.NoFields? ==>
              GetDescription(PyDict(a + [(k, v)] + b), fields) ==
              Dump(Filter(a, TruthyItem) + [(k, v)] + Filter(b, TruthyItem))
    ensures fields.FieldCollection? ==>
              var keep := e => SelectedItem(fields.names, e);
              GetDescription(PyDict(a + [(k, v)] + b), fields) == Dump(Filter(a, keep) + [(k, v)] + Filter(b, keep))
  {
    if fields.NoFields? {
      FilterAround(a, (k, v), b, TruthyItem);
    } else {
      FilterAround(a, (k, v), b, e => SelectedItem(fields.names, e));
    }
  }

  /** An item the filter keeps stays between what is kept before it and what is kept after it. */
  lemma FilterAround(a: Record, x: (string, Value), b: Record, keep: ((string, Value)) -> bool)
    requires keep(x)
    ensures Filter(a + [x] + b, keep) == Filter(a, keep) + [x] + Filter(b, keep)
  {
    FilterConcat(a + [x], b, keep);
    FilterConcat(a, [x], keep);
  }

  /** A filter that keeps every item keeps the record as it is. */
  lemma {:induction false} FilterKeepsAll(d: Record, keep: ((string, Value)) -> bool)
    requires forall e :: e in d ==> keep(e)
    ensures Filter(d, keep) == d
  {
    if d != [] {
      FilterKeepsAll(d[1..], keep);
    }
  }

  /** A record whose values are all truthy is dumped whole, in its own order. */
  lemma TruthyRecordDumpedWhole(d: Record)
    requires forall e :: e in d ==> Truthy(e.1)
    ensures GetDescription(PyDict(d), NoFields) == Dump(d)
  {
    FilterKeepsAll(d, TruthyItem);
  }

  /** A falsy item never shows in a description, with or without a field selection. */
  lemma DescriptionOmitsFalsy(a: Record, k: string, v: Value, b: Record, fields: Fields)
    requires !Truthy(v)
    requires fields.NoFields? || fields.FieldCollection?
    ensures GetDescription(PyDict(a + [(k, v)] + b), fields) == GetDescription(PyDict(a + b), fields)
  {
    if fields.NoFields? {
      FilterSkips(a, (k, v), b, TruthyItem);
    } else {
      FilterSkips(a, (k, v), b, e => SelectedItem(fields.names, e));
    }
  }

  /** The order (and repetition) of the selected field names does not matter: the record's order is used. */
  lemma SelectionOrderIrrelevant(d: Record, names: seq<string>, names': seq<string>)
    requires forall n :: n in names <==> n in names'
    ensures GetDescription(PyDict(d), FieldCollection(names)) == GetDescription(PyDict(d), FieldCollection(names'))
  {
    FilterAgree(d, e => SelectedItem(names, e), e => SelectedItem(names', e));
  }

  /** Selecting every key of a record describes it exactly as giving no selection does. */
  lemma SelectAllIsWholeRecord(d: Record, names: seq<string>)
    requires forall k :: k in Keys(d) ==> k in names
    ensures GetDescription(PyDict(d), FieldCollection(names)) == GetDescription(PyDict(d), NoFields)
  {
    forall e | e in d ensures SelectedItem(names, e) == TruthyItem(e) {
      var i :| 0 <= i < |d| && d[i] == e;
      assert Keys(d)[i] == e.0;
    }
    FilterAgree(d, e => SelectedItem(names, e), TruthyItem);
  }

  /** A metadata value the store accepts: no dict, list or class, and truthy. */
  predicate Storable(e: (string, Value)) {
    !e.1.PyDict? && !e.1.PyList? && !e.1.PyType? && Truthy(e.1)
  }

  /** `SemanticIndex._object_metadata(obj)`. */
  function ObjectMetadata(obj: Record): (r: Record)
    ensures UniqueKeys(obj) ==> UniqueKeys(r)
    ensures HasKey(r, "ID")
  {
    var kept := Filter(obj, Storable);
    var id := match Get(kept, "id") case Some(v) => v case None => PyStr("");
    assert UniqueKeys(obj) ==> UniqueKeys(kept) by {
      if UniqueKeys(obj) { FilterUnique(obj, Storable); }
    }
    Set(kept, "ID", id)
  }

  lemma {:induction false} FilterUnique(d: Record, keep: ((string, Value)) -> bool)
    requires UniqueKeys(d)
    ensures UniqueKeys(Filter(d, keep))
  {
    if d != [] {
      FilterUnique(d[1..], keep);
      var r := Filter(d[1..], keep);
      forall e | e in r ensures e.0 != d[0].0 {
        var j :| 0 <= j < |d[1..]| && d[1..][j] == e;
        assert d[j + 1] == e;
      }
    }
  }

  /**
   * What `_object_metadata` stores: every storable item of the record unchanged, nothing
   * else, and `ID` set to the stored `id` (or `""` when there is none).
   */
  lemma ObjectMetadataFields(obj: Record, k: string)
    requires UniqueKeys(obj)
    ensures k != "ID" ==>
              Get(ObjectMetadata(obj), k) ==
              if Get(obj, k).Some? && Storable((k, Get(obj, k).value)) then Get(obj, k) else None
    ensures Get(ObjectMetadata(obj), "ID") ==
              Some(if Get(obj, "id").Some? && Storable(("id", Get(obj, "id").value))
                   then Get(obj, "id").value else PyStr(""))
  {
    GetFilter(obj, Storable, k);
    GetFilter(obj, Storable, "id");
  }

  /** The embedding backends `_embedding_function` can return. */
  datatype Backend =
    | OpenAIEmbeddings(modelName: string)
    | OllamaEmbeddings(url: string, modelName: string)
    | SentenceTransformerEmbeddings(modelName: string)

  /** The calls the index issues to the vector store, in the order issued. */
  datatype StoreCall =
    | OpenClient(path: string)
    | GetOrCreate(name: string, backend: Backend, metadata: Record)
    | Add(collection: string, documents: seq<Value>, metadatas: seq<Record>, ids: seq<string>)
    | Query(collection: string, texts: seq<Value>, n: int, where: Option<Record>)
    | Fetch(collection: string, only: Option<seq<Value>>)  // `get_collection(collection).get(ids=only)`

  /** `SemanticIndex.search_concepts`'s wrapping: a non-list query becomes a one-element list. */
  function QueryList(queries: Value): (qs: seq<Value>)
    ensures !queries.PyList? ==> qs == [queries]
    ensures queries.PyList? ==> qs == queries.items
  {
    if queries.PyList? then queries.items else [queries]
  }

  /** The descriptions of several values, computed left to right; the first failure is raised. */
  function Descriptions(vs: seq<Value>, fields: Fields): (r: Result<seq<Value>, Error>)
    ensures r.Ok? <==> forall i :: 0 <= i < |vs| ==> GetDescription(vs[i], fields).Ok?
    ensures r.Ok? ==> |r.value| == |vs| &&
                      forall i :: 0 <= i < |vs| ==> r.value[i] == GetDescription(vs[i], fields).value
    ensures r.Err? ==> exists i :: 0 <= i < |vs| && GetDescription(vs[i], fields) == Err(r.error)
  {
    if vs == [] then Ok([])
    else
      match GetDescription(vs[0], fields)
      case Err(e) => Err(e)
      case Ok(d) =>
        match Descriptions(vs[1..], fields)
        case Err(e) => (assert vs[1..][0] in vs; Err(e))
        case Ok(ds) => Ok([d] + ds)
  }

  function AsDicts(rs: seq<Record>): (vs: seq<Value>)
    ensures |vs| == |rs| && forall i :: 0 <= i < |rs| ==> vs[i] == PyDict(rs[i])
  {
    seq(|rs|, i requires 0 <= i < |rs| => PyDict(rs[i]))
  }

  /** `[str(o["id"]) for o in chunk]`. */
  function Ids(chunk: seq<Record>): (r: Result<seq<string>, Error>)
    ensures r.Ok? <==> forall i :: 0 <= i < |chunk| ==> HasKey(chunk[i], "id")
    ensures r.Err? ==> r.error == KeyError("id")
    ensures r.Ok? ==> |r.value| == |chunk| &&
                      forall i :: 0 <= i < |chunk| ==> r.value[i] == Str(Get(chunk[i], "id").value)
  {
    if chunk == [] then Ok([])
    else
      match Get(chunk[0], "id")
      case None => Err(KeyError("id"))
      case Some(v) =>
        match Ids(chunk[1..])
        case Err(e) => Err(e)
        case Ok(ids) => Ok([Str(v)] + ids)
  }

  function Metadatas(chunk: seq<Record>): (ms: seq<Record>)
    ensures |ms| == |chunk| && forall i :: 0 <= i < |chunk| ==> ms[i] == ObjectMetadata(chunk[i])
  {
    seq(|chunk|, i requires 0 <= i < |chunk| => ObjectMetadata(chunk[i]))
  }

  /** The `collection.add` call for one chunk of `add_batch`: documents, then metadatas, then ids. */
  function BatchCall(collection: string, chunk: seq<Record>, fields: Fields): Result<StoreCall, Error> {
    match Descriptions(AsDicts(chunk), fields)
    case Err(e) => Err(e)
    case Ok(docs) =>
      match Ids(chunk)
      case Err(e) => Err(e)
      case Ok(ids) => Ok(Add(collection, docs, Metadatas(chunk), ids))
  }

  /**
   * One `add` call per chunk, with parallel documents, metadatas and ids in chunk order; it
   * fails exactly when a description fails or a record has no `id`.
   */
  lemma BatchCallSpec(collection: string, chunk: seq<Record>, fields: Fields)
    ensures var r := BatchCall(collection, chunk, fields);
            r.Ok? ==>
              && r.value.Add?
              && r.value.collection == collection
              && |r.value.documents| == |r.value.metadatas| == |r.value.ids| == |chunk|
              && (forall i :: 0 <= i < |chunk| ==>
                    && GetDescription(PyDict(chunk[i]), fields).Ok?
                    && r.value.documents[i] == GetDescription(PyDict(chunk[i]), fields).value
                    && r.value.metadatas[i] == ObjectMetadata(chunk[i])
                    && HasKey(chunk[i], "id")
                    && r.value.ids[i] == Str(Get(chunk[i], "id").value))
    ensures BatchCall(collection, chunk, fields).Err? <==>
              || (exists i :: 0 <= i < |chunk| && GetDescription(PyDict(chunk[i]), fields).Err?)
              || (exists i :: 0 <= i < |chunk| && !HasKey(chunk[i], "id"))
  {
    DescribeChunk(chunk, fields);
  }

  /** The descriptions of a chunk's records, each taken as a dict. */
  lemma DescribeChunk(chunk: seq<Record>, fields: Fields)
    ensures var r := Descriptions(AsDicts(chunk), fields);
            && (r.Ok? <==> forall i :: 0 <= i < |chunk| ==> GetDescription(PyDict(chunk[i]), fields).Ok?)
            && (r.Ok? ==> |r.value| == |chunk| &&
                          forall i :: 0 <= i < |chunk| ==> r.value[i] == GetDescription(PyDict(chunk[i]), fields).value)
  {
    var vs := AsDicts(chunk);
    assert forall i :: 0 <= i < |chunk| ==> vs[i] == PyDict(chunk[i]);
  }

  /**
   * The consecutive slices of `s` that `chunk(s, size)` yields: all of length `size` but the
   * last, and ceil(|s| / size) of them.
   */
  function Chunks<T>(s: seq<T>, size: nat): (cs: seq<seq<T>>)
    requires size > 0
    ensures forall i :: 0 <= i < |cs| ==> 0 < |cs[i]| <= size
    ensures forall i :: 0 <= i < |cs| - 1 ==> |cs[i]| == size
    ensures (|cs| - 1) * size < |s| <= |cs| * size || (s == [] && cs == [])
    decreases |s|
  {
    if s == [] then []
    else if |s| <= size then [s]
    else [s[..size]] + Chunks(s[size..], size)
  }

  /** The chunks, put back together, are the original sequence. */
  lemma {:induction false} ChunksFlatten<T>(s: seq<T>, size: nat)
    requires size > 0
    ensures Flatten(Chunks(s, size)) == s
    decreases |s|
  {
    if s != [] && |s| > size {
      ChunksFlatten(s[size..], size);
      assert Chunks(s, size)[1..] == Chunks(s[size..], size);
      assert s == s[..size] + s[size..];
    }
  }

  /** `add_batch`'s step: the `add` call for one chunk. */
  function BatchStep(collection: string, fields: Fields): seq<Record> -> Result<StoreCall, Error> {
    chunk => BatchCall(collection, chunk, fields)
  }

  /** `add_concepts`'s step: one single-record `add` call for an (id, record) item. */
  function StreamCall(collection: string, item: (string, Record), fields: Fields): Result<StoreCall, Error> {
    match GetDescription(PyDict(item.1), fields)
    case Err(e) => Err(e)
    case Ok(d) => Ok(Add(collection, [d], [ObjectMetadata(item.1)], [item.0]))
  }

  function StreamStep(collection: string, fields: Fields): ((string, Record)) -> Result<StoreCall, Error> {
    item => StreamCall(collection, item, fields)
  }

  /** The `add` calls of `add_batch`'s loop, one per chunk. */
  function IndexBatches(collection: string, chunks: seq<seq<Record>>, fields: Fields): (seq<StoreCall>, Option<Error>) {
    Collect(chunks, BatchStep(collection, fields))
  }

  /** The chunks before the first failing one are all sent, in order; nothing after it is. */
  lemma IndexBatchesSpec(collection: string, chunks: seq<seq<Record>>, fields: Fields)
    ensures var r := IndexBatches(collection, chunks, fields);
            && |r.0| <= |chunks|
            && (forall i :: 0 <= i < |r.0| ==> BatchCall(collection, chunks[i], fields) == Ok(r.0[i]))
            && (r.1.None? ==> |r.0| == |chunks|)
            && (r.1.Some? ==> |r.0| < |chunks| && BatchCall(collection, chunks[|r.0|], fields) == Err(r.1.value))
  {
    CollectSpec(chunks, BatchStep(collection, fields));
  }

  /** The `add` calls of `add_concepts`'s loop, one per (id, record) item. */
  function IndexStream(collection: string, items: seq<(string, Record)>, fields: Fields): (seq<StoreCall>, Option<Error>) {
    Collect(items, StreamStep(collection, fields))
  }

  /** One single-record `add` call per item, in order, up to the first item whose description fails. */
  lemma IndexStreamSpec(collection: string, items: seq<(string, Record)>, fields: Fields)
    ensures var r := IndexStream(collection, items, fields);
            && |r.0| <= |items|
            && (forall i :: 0 <= i < |r.0| ==>
                  var d := GetDescription(PyDict(items[i].1), fields);
                  d.Ok? && r.0[i] == Add(collection, [d.value], [ObjectMetadata(items[i].1)], [items[i].0]))
            && (r.1.None? ==> |r.0| == |items|)
            && (r.1.Some? ==> |r.0| < |items| && GetDescription(PyDict(items[|r.0|].1), fields) == Err(r.1.value))
  {
    CollectSpec(items, StreamStep(collection, fields));
  }

  /** `_embedding_function`'s choice for a model name that is given. */
  function ChooseBackend(model: string, ownModel: string): Backend {
    if StartsWith(model, "openai:") then OpenAIEmbeddings("text-embedding-ada-002")
    else if StartsWith(model, "llama:") then OllamaEmbeddings("http://localhost:11434/api/embeddings", "nomic-embed-text")
    else SentenceTransformerEmbeddings(ownModel)
  }

  /** Only the prefix of the model name matters; without a known prefix, the index's own model is used. */
  lemma BackendIgnoresName(a: string, b: string, own: string)
    requires StartsWith(a, "openai:") == StartsWith(b, "openai:")
    requires StartsWith(a, "llama:") == StartsWith(b, "llama:")
    ensures ChooseBackend(a, own) == ChooseBackend(b, own)
  {
  }

  class SemanticIndex {
    var model: string
    var metadata: Record
    var path: string
    /** The calls issued to the vector store so far, oldest first. */
    var calls: seq<StoreCall>

    /** `SemanticIndex(path, model, metadata)`: each argument left as None takes its default. */
    constructor (path: Option<string>, model: Option<string>, metadata: Option<Record>)
      ensures this.model == (if model.Some? then model.value else DefaultModel)
      ensures this.metadata == (if metadata.Some? then metadata.value else DefaultMetadata)
      ensures this.path == (if path.Some? then path.value else DefaultPath)
      ensures calls == [OpenClient(this.path)]
    {
      this.model := if model.Some? then model.value else DefaultModel;
      this.metadata := if metadata.Some? then metadata.value else DefaultMetadata;
      this.path := if path.Some? then path.value else DefaultPath;
      calls := [OpenClient(if path.Some? then path.value else DefaultPath)];
    }

    /** `_embedding_function(model)`. */
    function EmbeddingFunction(model: Option<string>): (r: Result<Backend, Error>)
      reads this`model
      ensures r.Err? <==> model.None?
      ensures r.Err? ==> r.error == ValueError("Model must be specified")
      ensures model.Some? && StartsWith(model.value, "openai:") ==> r == Ok(OpenAIEmbeddings("text-embedding-ada-002"))
      ensures model.Some? && !StartsWith(model.value, "openai:") && StartsWith(model.value, "llama:") ==>
                r == Ok(OllamaEmbeddings("http://localhost:11434/api/embeddings", "nomic-embed-text"))
      ensures model.Some? && !StartsWith(model.value, "openai:") && !StartsWith(model.value, "llama:") ==>
                r == Ok(SentenceTransformerEmbeddings(this.model))
    {
      if model.None? then Err(ValueError("Model must be specified")) else Ok(ChooseBackend(model.value, this.model))
    }

    /** The model and metadata `_get_or_create_collection` uses when given `model` and `metadata`. */
    function CollectionSettings(model: Option<string>, metadata: Option<Record>): (s: (string, Record))
      reads this`model, this`metadata
      ensures s.0 == if model.Some? then model.value else this.model
      ensures metadata.Some? ==> s.1 == metadata.value
      ensures metadata.None? ==>
                && Get(s.1, "model") == Some(PyStr(s.0))
                && (forall k :: k != "model" ==> Get(s.1, k) == Get(this.metadata, k))
    {
      var m := if model.Some? then model.value else this.model;
      (m, if metadata.Some? then metadata.value else Set(this.metadata, "model", PyStr(m)))
    }

    /** The `get_or_create_collection` call `_get_or_create_collection` issues. */
    function CollectionCall(collection: string, model: Option<string>, metadata: Option<Record>): (c: StoreCall)
      reads this`model, this`metadata
      ensures c.GetOrCreate? && c.name == collection
      ensures c.backend == EmbeddingFunction(Some(CollectionSettings(model, metadata).0)).value
      ensures c.metadata == CollectionSettings(model, metadata).1
    {
      var s := CollectionSettings(model, metadata);
      GetOrCreate(collection, ChooseBackend(s.0, this.model), s.1)
    }

    /**
     * `_get_or_create_collection`. The model is resolved to a string before the embedding
     * function is chosen, so the `ValueError` of `_embedding_function` cannot arise here.
     */
    method GetOrCreateCollection(collection: string, model: Option<string>, metadata: Option<Record>) returns (name: string)
      modifies this`calls
      ensures name == collection
      ensures calls == old(calls) + [old(CollectionCall(collection, model, metadata))]
    {
      calls := calls + [CollectionCall(collection, model, metadata)];
      name := collection;
    }

    /**
     * `add_batch`: one `add` call per chunk of at most `batch_size` records (500 by default),
     * after the collection is fetched or created.
     */
    method AddBatch(concepts: seq<Record>, collection: string, fields: Fields, batchSize: Option<int>,
                    model: Option<string>, metadata: Option<Record>) returns (err: Option<Error>)
      requires batchSize.None? || batchSize.value > 0
      modifies this`calls
      ensures var size := if batchSize.Some? then batchSize.value else DefaultBatchSize;
              var r := IndexBatches(collection, Chunks(concepts, size), fields);
              && calls == old(calls) + [old(CollectionCall(collection, model, metadata))] + r.0
              && err == r.1
    {
      var size := if batchSize.Some? then batchSize.value else DefaultBatchSize;
      var name := GetOrCreateCollection(collection, model, metadata);
      var sent;
      sent, err := CollectAll(Chunks(concepts, size), BatchStep(name, fields));
      calls := calls + sent;
    }

    /** `add_concepts`: one `add` call per (id, record) item, after the collection is fetched or created. */
    method AddConcepts(concepts: seq<(string, Record)>, collection: string, fields: Fields,
                       model: Option<string>, metadata: Option<Record>) returns (err: Option<Error>)
      modifies this`calls
      ensures var r := IndexStream(collection, concepts, fields);
              && calls == old(calls) + [old(CollectionCall(collection, model, metadata))] + r.0
              && err == r.1
    {
      var name := GetOrCreateCollection(collection, model, metadata);
      var sent;
      sent, err := CollectAll(concepts, StreamStep(name, fields));
      calls := calls + sent;
    }

    /**
     * `search_concepts`: the query texts are the descriptions of the queries, one per query
     * and in order; a single non-list query is wrapped into a list. The neighbours the store
     * returns are not part of this model; the query call is recorded and its texts returned.
     */
    method SearchConcepts(queries: Value, collection: string, k: int, where: Option<Record>, fields: Fields,
                          model: Option<string>, metadata: Option<Record>) returns (r: Result<seq<Value>, Error>)
      modifies this`calls
      ensures r == Descriptions(QueryList(queries), fields)
      ensures r.Err? ==> calls == old(calls)
      ensures r.Ok? ==> calls == old(calls) + [old(CollectionCall(collection, model, metadata)),
                                               Query(collection, r.value, k, where)]
    {
      var texts := Descriptions(QueryList(queries), fields);
      if texts.Err? {
        return texts;
      }
      var name := GetOrCreateCollection(collection, model, metadata);
      calls := calls + [Query(name, texts.value, k, where)];
      r := texts;
    }
  }
}
