/**
 * The concept recogniser (`Lumus` in concept_recognizer.py): it extracts mentions from a text
 * with a chat model, retrieves candidate concepts for each mention from the semantic index
 * (with an optional exact-match backup against a vocabulary of labels and synonyms), and
 * asks the chat model which candidate a mention refers to.
 *
 * The chat model is the function `llm` from a request to its reply; the k nearest neighbours
 * the index returns and the contents of a collection are inputs. Every request to the chat
 * model is recorded in `Lumus.chats`, every call to the vector store in the index's `calls`.
 */
module ConceptRecognizer {
  import opened Wrappers
  import opened PyStrings
  import opened PyValues
  import opened Steps
  import opened Indexer
  import opened Vocabulary
  import opened ReplyParsing

  /**
   * The fixed texts of the recogniser's requests. The models below take them as data, so
   * that the long literals appear only in `SourceTexts`.
   */
  datatype Texts = Texts(
    concept: string,          // CONCEPT_PROMPT
    define: string,           // DEFINE_PROMPT
    grounding: string,        // GROUNDING_PROMPT
    extractOpening: string,   // the extraction prompt before the category
    extractMiddle: string,    // between the category and its name
    extractClosing: string)   // after the category's name

  const SourceTexts: Texts := Texts(
    "As a clinical expert, write a single sentence definition that explains the meaning of the concept:",
    "Given a text and a semicolon-separated list of entities from that text, write a definition for each entity in the following format:\n"
    + "entity: <A single sentence definition that explains the meaning of the entity>",
    "As an expert clinician, your task is to accurately identify the concept mentioned in the provided text using the concepts listed below. "
    + "Accuracy is paramount. If the text does not precisely refer to any of the concepts listed below, please return \"None\"; "
    + "otherwise, return the corresponding concept ID in the following format:\n"
    + "answer: <concept ID or None>\n"
    + "confidence: <one of: HIGH, LOW, MEDIUM>\n",
    "From the text below, extract all mentions of the following entities in the following format:\n\n",
    " It must be semicolon-separated. If no mention of ",
    " is found in text, respond None.>" + "\n\nText:\n")

  /** One request to the chat model: the model, the system message and the user message. */
  datatype ChatCall = ChatCall(model: string, system: string, user: string)

  /** The chat model, as the reply it gives to each request. */
  type Chat = ChatCall -> string

  /** A record of a collection: its id and its metadata. */
  type Stored = (string, Record)

  // ---------------------------------------------------------------------------------------
  // `init_vocab`
  // ---------------------------------------------------------------------------------------

  /** `get_collection(collection).get(include=["metadatas"])["metadatas"]`. */
  function AllMetadatas(contents: seq<Stored>): (ms: seq<Record>)
    ensures |ms| == |contents| && forall i :: 0 <= i < |contents| ==> ms[i] == contents[i].1
  {
    seq(|contents|, i requires 0 <= i < |contents| => contents[i].1)
  }

  /** One record of `init_vocab`'s loop, with the inner loop over its synonyms. */
  method AddTermStep(voc: Record, term: Record) returns (vocab: Record, err: Option<Error>)
    ensures (vocab, err) == AddTerm(voc, term)
  {
    var id := Get(term, "id");
    if id.None? {
      return voc, Some(KeyError("id"));
    }
    var name := Get(term, "label");
    if name.None? {
      return voc, Some(KeyError("label"));
    }
    if !name.value.PyStr? {
      return voc, Some(AttributeError("lower"));
    }
    vocab := Set(voc, Lower(name.value.s), id.value);
    err := None;
    var syns := Synonyms(term);
    if !Truthy(syns) {
      return;
    }
    if !syns.PyStr? {
      return vocab, Some(AttributeError("split"));
    }
    vocab := AddSynonyms(vocab, syns.s, id.value);
  }

  /** The inner loop of `init_vocab`: each lower-cased synonym is mapped to the id. */
  method AddSynonyms(voc: Record, syns: string, id: Value) returns (vocab: Record)
    ensures vocab == SetAll(voc, SynonymKeys(syns), id)
  {
    var parts := Split(syns, ", ");
    var keys := SynonymKeys(syns);
    vocab := voc;
    var j := 0;
    assert keys[..0] == [];
    while j < |parts|
      invariant 0 <= j <= |parts|
      invariant vocab == SetAll(voc, keys[..j], id)
    {
      SetAllStep(voc, keys, j, id);
      vocab := Set(vocab, keys[j], id);
      j := j + 1;
    }
    assert keys[..j] == keys;
  }

  /** `init_vocab`'s loop over the records of a collection, from the table `voc`. */
  method FillVocab(voc: Record, terms: seq<Record>) returns (vocab: Record, err: Option<Error>)
    ensures (vocab, err) == Vocabulary.InitVocab(voc, terms)
  {
    vocab, err := voc, None;
    var i := 0;
    assert terms[..0] == [];
    while i < |terms|
      invariant 0 <= i <= |terms|
      invariant Vocabulary.InitVocab(voc, terms[..i]) == (vocab, None)
      invariant err.None?
    {
      InitVocabStep(voc, terms, i);
      vocab, err := AddTermStep(vocab, terms[i]);
      if err.Some? {
        InitVocabSticks(voc, terms, i + 1);
        return;
      }
      i := i + 1;
    }
    assert terms[..i] == terms;
  }

  // ---------------------------------------------------------------------------------------
  // `grab_candidates`
  // ---------------------------------------------------------------------------------------

  /** `[knn["metadatas"][m][n] for n in range(k)]`, as the loop of `grab_candidates` builds it. */
  function Neighbours(knn: seq<seq<Record>>, m: nat, k: int): (r: Result<seq<Record>, Error>)
    ensures r.Ok? <==> k <= 0 || (m < |knn| && k <= |knn[m]|)
    ensures r.Ok? ==> |r.value| == (if k <= 0 then 0 else k)
  {
    if k <= 0 then Ok([])
    else if m >= |knn| || k > |knn[m]| then Err(IndexError("list index out of range"))
    else Ok(knn[m][..k])
  }

  /** The neighbour loop: the first `k` neighbours of mention `m`, in index order. */
  method TakeNeighbours(knn: seq<seq<Record>>, m: nat, k: int) returns (r: Result<seq<Record>, Error>)
    ensures r == Neighbours(knn, m, k)
    ensures r.Ok? && k > 0 ==> r.value == knn[m][..k]
  {
    var concepts: seq<Record> := [];
    var n := 0;
    while n < k
      invariant 0 <= n && (k > 0 ==> n <= k) && (k <= 0 ==> n == 0)
      invariant n > 0 ==> m < |knn| && n <= |knn[m]| && concepts == knn[m][..n]
      invariant n == 0 ==> concepts == []
    {
      if m >= |knn| || n >= |knn[m]| {
        return Err(IndexError("list index out of range"));
      }
      concepts := concepts + [knn[m][n]];
      n := n + 1;
    }
    return Ok(concepts);
  }

  /** `[c["id"] for c in concepts]`. */
  function CandidateIds(concepts: seq<Record>): (r: Result<seq<Value>, Error>)
    ensures r.Ok? <==> forall i :: 0 <= i < |concepts| ==> HasKey(concepts[i], "id")
    ensures r.Err? ==> r.error == KeyError("id")
    ensures r.Ok? ==> |r.value| == |concepts| &&
                      forall i :: 0 <= i < |concepts| ==> r.value[i] == Get(concepts[i], "id").value
  {
    if concepts == [] then Ok([])
    else
      match Get(concepts[0], "id")
      case None => Err(KeyError("id"))
      case Some(v) =>
        match CandidateIds(concepts[1..])
        case Err(e) => Err(e)
        case Ok(ids) => Ok([v] + ids)
  }

  /** `mentions[m]["label"]`, which `find_exact` lowers. */
  function MentionLabel(mention: Record): (r: Result<string, Error>)
    ensures r.Ok? ==> Get(mention, "label") == Some(PyStr(r.value))
    ensures r.Err? ==> r.error == (if HasKey(mention, "label") then AttributeError("lower") else KeyError("label"))
  {
    match Get(mention, "label")
    case None => Err(KeyError("label"))
    case Some(v) => if v.PyStr? then Ok(v.s) else Err(AttributeError("lower"))
  }

  /** `{"id": exact_match, "confidence": "HIGH", "exact": True}`. */
  function ExactFewShot(id: Value): Value {
    PyDict([("id", id), ("confidence", PyStr("HIGH")), ("exact", PyBool(true))])
  }

  /** `get(ids=[id])["metadatas"]`: the metadatas stored under `id`, in store order. */
  function MetadatasOf(contents: seq<Stored>, id: string): (ms: seq<Record>)
    ensures ms == [] <==> forall i :: 0 <= i < |contents| ==> contents[i].0 != id
    ensures forall r :: r in ms ==> (id, r) in contents
  {
    if contents == [] then []
    else (if contents[0].0 == id then [contents[0].1] else []) + MetadatasOf(contents[1..], id)
  }

  /** `get(ids=[exact_match])["metadatas"][0]`; the store takes string ids only. */
  function FetchMatch(contents: seq<Stored>, id: Value): (r: Result<Record, Error>)
    ensures r.Ok? <==> id.PyStr? && exists i :: 0 <= i < |contents| && contents[i].0 == id.s
    ensures r.Ok? ==> (id.s, r.value) in contents
  {
    if !id.PyStr? then Err(ValueError("Expected ID to be a str"))
    else
      var ms := MetadatasOf(contents, id.s);
      if ms == [] then Err(IndexError("list index out of range")) else Ok(ms[0])
  }

  /** The outcome of the backup for one mention: the mention, its concepts, the store calls made and the error raised. */
  datatype Backed = Backed(mention: Record, concepts: seq<Record>, fetched: seq<StoreCall>, err: Option<Error>)

  /**
   * The exact-match backup of `grab_candidates` for one mention, against the vocabulary `voc`:
   * an exact match among the candidates resolves the mention, another one is fetched from the
   * collection and put in front of the candidates.
   */
  function Backup(mention: Record, concepts: seq<Record>, voc: Record, collection: string, contents: seq<Stored>): (r: Backed)
    ensures forall c :: c in r.fetched ==> c.Fetch? && c.collection == collection && c.only.Some?
    ensures r.err.Some? ==> r.mention == mention
  {
    match CandidateIds(concepts)
    case Err(e) => Backed(mention, concepts, [], Some(e))
    case Ok(ids) =>
      match MentionLabel(mention)
      case Err(e) => Backed(mention, concepts, [], Some(e))
      case Ok(name) =>
        match FindExact(name, voc)
        case Err(e) => Backed(mention, concepts, [], Some(e))
        case Ok(exact) =>
          if !Truthy(exact) then Backed(mention, concepts, [], None)
          else if exact in ids then Backed(Set(mention, "few_shot", ExactFewShot(exact)), concepts, [], None)
          else
            var call := Fetch(collection, Some([exact]));
            match FetchMatch(contents, exact)
            case Err(e) => Backed(mention, concepts, [call], Some(e))
            case Ok(meta) => Backed(mention, [Filter(meta, TruthyItem)] + concepts, [call], None)
  }

  /** `mentions[m]["concepts"] = concepts`. */
  function WithConcepts(mention: Record, concepts: seq<Record>): Record {
    Set(mention, "concepts", PyList(AsDicts(concepts)))
  }

  /** What `grab_candidates` works from besides the mentions and the vocabulary. */
  datatype Lookup = Lookup(knn: seq<seq<Record>>, k: int, withBackup: bool, collection: string, contents: seq<Stored>)

  /** The outcome for one mention: the mention, the vocabulary after it, the store calls made and the error raised. */
  datatype Grabbed = Grabbed(mention: Record, vocab: Record, fetched: seq<StoreCall>, err: Option<Error>)

  /** One iteration of `grab_candidates`'s loop, for mention `m` with the vocabulary `voc`. */
  function GrabMention(mention: Record, m: nat, look: Lookup, voc: Record): (g: Grabbed)
    ensures g.err.Some? ==> g.mention == mention
  {
    match Neighbours(look.knn, m, look.k)
    case Err(e) => Grabbed(mention, voc, [], Some(e))
    case Ok(concepts) =>
      if !look.withBackup then Grabbed(WithConcepts(mention, concepts), voc, [], None)
      else
        var built := if voc == [] then Vocabulary.InitVocab(voc, AllMetadatas(look.contents)) else (voc, None);
        var load := if voc == [] then [Fetch(look.collection, None)] else [];
        if built.1.Some? then Grabbed(mention, built.0, load, built.1)
        else
          var b := Backup(mention, concepts, built.0, look.collection, look.contents);
          Grabbed(if b.err.Some? then mention else WithConcepts(b.mention, b.concepts), built.0, load + b.fetched, b.err)
  }

  /** The mentions, the vocabulary, the store calls and the error after `grab_candidates`' first `n` iterations. */
  datatype GrabRun = GrabRun(mentions: seq<Record>, vocab: Record, fetched: seq<StoreCall>, err: Option<Error>)

  /** What one iteration does to a mention, given its position and the vocabulary before it. */
  type MentionStep = (Record, nat, Record) -> Grabbed

  /**
   * `grab_candidates`' loop from mention `i` on, with the vocabulary `voc`: each mention gets
   * its candidates in turn, and the first one that raises ends the loop, leaving it and the
   * mentions after it as they were.
   */
  function GrabFrom(ms: seq<Record>, i: nat, step: MentionStep, voc: Record): (r: GrabRun)
    requires i <= |ms|
    ensures |r.mentions| == |ms|
    ensures forall j :: 0 <= j < i ==> r.mentions[j] == ms[j]
    decreases |ms| - i
  {
    if i == |ms| then GrabRun(ms, voc, [], None)
    else
      var g := step(ms[i], i, voc);
      if g.err.Some? then GrabRun(ms, g.vocab, g.fetched, g.err)
      else
        var rest := GrabFrom(ms[i := g.mention], i + 1, step, g.vocab);
        GrabRun(rest.mentions, rest.vocab, g.fetched + rest.fetched, rest.err)
  }

  function GrabStep(look: Lookup): MentionStep {
    (mention: Record, m: nat, voc: Record) => GrabMention(mention, m, look, voc)
  }

  /** `grab_candidates`' loop over all the mentions. */
  function Grab(ms: seq<Record>, look: Lookup, voc: Record): GrabRun {
    GrabFrom(ms, 0, GrabStep(look), voc)
  }

  /** `r` after the store calls `calls`. */
  function AfterCalls(calls: seq<StoreCall>, r: GrabRun): GrabRun {
    r.(fetched := calls + r.fetched)
  }

  lemma AfterCallsTwice(a: seq<StoreCall>, b: seq<StoreCall>, r: GrabRun)
    ensures AfterCalls(a, AfterCalls(b, r)) == AfterCalls(a + b, r)
  {
    assert a + (b + r.fetched) == (a + b) + r.fetched;
  }

  /** One iteration of the loop. */
  method GrabOne(mention: Record, m: nat, look: Lookup, voc: Record) returns (g: Grabbed)
    ensures g == GrabMention(mention, m, look, voc)
  {
    var concepts := TakeNeighbours(look.knn, m, look.k);
    if concepts.Err? {
      return Grabbed(mention, voc, [], Some(concepts.error));
    }
    if !look.withBackup {
      return Grabbed(WithConcepts(mention, concepts.value), voc, [], None);
    }
    var vocab, err := voc, None;
    var load: seq<StoreCall> := [];
    if vocab == [] {
      vocab, err := FillVocab(vocab, AllMetadatas(look.contents));
      load := [Fetch(look.collection, None)];
      if err.Some? {
        return Grabbed(mention, vocab, load, err);
      }
    }
    var b := Backup(mention, concepts.value, vocab, look.collection, look.contents);
    if b.err.Some? {
      return Grabbed(mention, vocab, load + b.fetched, b.err);
    }
    return Grabbed(WithConcepts(b.mention, b.concepts), vocab, load + b.fetched, None);
  }

  /**
   * The backup for a mention whose lowered label `x` is literal text and a vocabulary whose
   * keys are stripped: the exact match is `voc[x]`. A match among the candidates' ids resolves
   * the mention with `few_shot` and leaves the candidates alone; any other match is fetched
   * from the collection and its truthy fields go in front of the candidates, with no
   * `few_shot`; no match, or a falsy one, changes nothing.
   */
  lemma BackupOutcome(mention: Record, concepts: seq<Record>, voc: Record, collection: string, contents: seq<Stored>)
    requires CandidateIds(concepts).Ok? && MentionLabel(mention).Ok?
    requires RegexLiteral(Lower(MentionLabel(mention).value)) && NoBrackets(Lower(MentionLabel(mention).value))
    requires forall i :: 0 <= i < |voc| ==> Strip(voc[i].0) == voc[i].0 && NoBrackets(voc[i].0)
    ensures var x := Lower(MentionLabel(mention).value);
            var b := Backup(mention, concepts, voc, collection, contents);
            var ids := CandidateIds(concepts).value;
            && (!HasKey(voc, x) || !Truthy(Get(voc, x).value) ==> b == Backed(mention, concepts, [], None))
            && (HasKey(voc, x) && Truthy(Get(voc, x).value) && Get(voc, x).value in ids ==>
                  b == Backed(Set(mention, "few_shot", ExactFewShot(Get(voc, x).value)), concepts, [], None))
            && (HasKey(voc, x) && Truthy(Get(voc, x).value) && Get(voc, x).value !in ids ==>
                  && b.mention == mention
                  && b.fetched == [Fetch(collection, Some([Get(voc, x).value]))]
                  && (b.err.None? <==> FetchMatch(contents, Get(voc, x).value).Ok?)
                  && (b.err.None? ==> b.concepts == [Filter(FetchMatch(contents, Get(voc, x).value).value, TruthyItem)] + concepts))
  {
    FindExactIsLookup(MentionLabel(mention).value, voc);
  }

  /**
   * One mention: its concepts are its first `k` neighbours, in index order, when it has that
   * many; without the backup that is all, and with it the vocabulary is built, with one
   * fetch of the whole collection, only when it is still empty.
   */
  lemma GrabMentionSpec(mention: Record, m: nat, look: Lookup, voc: Record)
    ensures var g := GrabMention(mention, m, look, voc);
            var nb := Neighbours(look.knn, m, look.k);
            && (nb.Err? ==> g == Grabbed(mention, voc, [], Some(nb.error)))
            && (nb.Ok? && look.k > 0 ==> nb.value == look.knn[m][..look.k])
            && (nb.Ok? && !look.withBackup ==> g == Grabbed(WithConcepts(mention, nb.value), voc, [], None))
            && (look.withBackup && voc != [] ==> g.vocab == voc && Fetch(look.collection, None) !in g.fetched)
            && (nb.Ok? && look.withBackup && voc == [] ==>
                  && g.vocab == Vocabulary.InitVocab([], AllMetadatas(look.contents)).0
                  && |g.fetched| >= 1 && g.fetched[0] == Fetch(look.collection, None))
  {
  }

  /** How a mention receives its candidate concepts. */
  type Attach = (Record, seq<Record>) -> Record

  /** An iteration without the backup: the first `k` neighbours, or the error for too few. */
  function PlainGrab(mention: Record, m: nat, look: Lookup, attach: Attach, voc: Record): Grabbed {
    var nb := Neighbours(look.knn, m, look.k);
    if nb.Err? then Grabbed(mention, voc, [], Some(nb.error)) else Grabbed(attach(mention, nb.value), voc, [], None)
  }

  lemma {:induction false} GrabFromPlain(ms: seq<Record>, i: nat, step: MentionStep, look: Lookup, attach: Attach, voc: Record)
    requires i <= |ms|
    requires forall x, j :: step(x, j, voc) == PlainGrab(x, j, look, attach, voc)
    ensures var r := GrabFrom(ms, i, step, voc);
            && r.vocab == voc && r.fetched == []
            && (r.err.None? <==> forall j :: i <= j < |ms| ==> Neighbours(look.knn, j, look.k).Ok?)
            && (r.err.None? ==> forall j :: i <= j < |ms| ==> r.mentions[j] == attach(ms[j], Neighbours(look.knn, j, look.k).value))
    decreases |ms| - i
  {
    if i < |ms| {
      var nb := Neighbours(look.knn, i, look.k);
      if nb.Ok? {
        var next := ms[i := attach(ms[i], nb.value)];
        GrabFromPlain(next, i + 1, step, look, attach, voc);
        var rest := GrabFrom(next, i + 1, step, voc);
        assert GrabFrom(ms, i, step, voc) == AfterCalls([], rest);
        assert [] + rest.fetched == rest.fetched;
        assert rest.mentions[i] == next[i];
        assert forall j :: i < j < |ms| ==> next[j] == ms[j];
      }
    }
  }

  /**
   * Without the backup, every mention gets exactly its first `k` neighbours as `concepts`
   * (none when `k <= 0`), the vocabulary is untouched and the store is not called; the loop
   * raises exactly when some mention has fewer than `k` neighbours.
   */
  lemma GrabNoBackup(ms: seq<Record>, look: Lookup, voc: Record)
    requires !look.withBackup
    ensures var r := Grab(ms, look, voc);
            && r.vocab == voc && r.fetched == []
            && (r.err.None? <==> forall j :: 0 <= j < |ms| ==> Neighbours(look.knn, j, look.k).Ok?)
            && (r.err.None? ==> forall j :: 0 <= j < |ms| ==> r.mentions[j] == WithConcepts(ms[j], Neighbours(look.knn, j, look.k).value))
  {
    forall x, j | true
      ensures GrabStep(look)(x, j, voc) == PlainGrab(x, j, look, WithConcepts, voc)
    {
      GrabMentionSpec(x, j, look, voc);
    }
    GrabFromPlain(ms, 0, GrabStep(look), look, WithConcepts, voc);
  }

  /** A loop whose every iteration from the vocabulary `voc` keeps it and skips the call `call` keeps it too. */
  lemma {:induction false} GrabFromKeeps(ms: seq<Record>, i: nat, step: MentionStep, voc: Record, call: StoreCall)
    requires i <= |ms|
    requires forall x, j :: step(x, j, voc).vocab == voc && call !in step(x, j, voc).fetched
    ensures GrabFrom(ms, i, step, voc).vocab == voc && call !in GrabFrom(ms, i, step, voc).fetched
    decreases |ms| - i
  {
    if i < |ms| {
      var g := step(ms[i], i, voc);
      if g.err.None? {
        GrabFromKeeps(ms[i := g.mention], i + 1, step, voc, call);
      }
    }
  }

  /** From an empty vocabulary, one iteration with the backup reads the whole collection at most once and, unless it raises, leaves the vocabulary built from it. */
  lemma GrabMentionLoadsOnce(mention: Record, m: nat, look: Lookup)
    requires look.withBackup
    ensures var g := GrabMention(mention, m, look, []);
            && multiset(g.fetched)[Fetch(look.collection, None)] <= 1
            && (g.err.None? ==> g.vocab == Vocabulary.InitVocab([], AllMetadatas(look.contents)).0)
  {
    var whole := Fetch(look.collection, None);
    var nb := Neighbours(look.knn, m, look.k);
    if nb.Ok? {
      var built := Vocabulary.InitVocab([], AllMetadatas(look.contents));
      if built.1.None? {
        var b := Backup(mention, nb.value, built.0, look.collection, look.contents);
        assert whole !in b.fetched;
        assert multiset([whole] + b.fetched)[whole] == 1 + multiset(b.fetched)[whole];
      }
    }
  }

  /**
   * With the backup, the vocabulary is built from the whole collection only while it is empty:
   * a non-empty vocabulary is never rebuilt, and when the collection yields a non-empty one,
   * the loop reads the whole collection at most once.
   */
  lemma GrabVocabOnce(ms: seq<Record>, look: Lookup, voc: Record)
    requires look.withBackup
    ensures var r := Grab(ms, look, voc);
            && (voc != [] ==> r.vocab == voc && Fetch(look.collection, None) !in r.fetched)
            && (Vocabulary.InitVocab([], AllMetadatas(look.contents)).0 != [] ==>
                  multiset(r.fetched)[Fetch(look.collection, None)] <= 1)
  {
    var whole := Fetch(look.collection, None);
    var step := GrabStep(look);
    forall v: Record, x, j | v != []
      ensures step(x, j, v).vocab == v && whole !in step(x, j, v).fetched
    {
      GrabMentionSpec(x, j, look, v);
    }
    if voc != [] {
      GrabFromKeeps(ms, 0, step, voc, whole);
    } else if |ms| > 0 {
      var v0 := Vocabulary.InitVocab([], AllMetadatas(look.contents)).0;
      var g := step(ms[0], 0, voc);
      GrabMentionLoadsOnce(ms[0], 0, look);
      if g.err.None? && v0 != [] {
        var rest := GrabFrom(ms[0 := g.mention], 1, step, g.vocab);
        GrabFromKeeps(ms[0 := g.mention], 1, step, v0, whole);
        assert Grab(ms, look, voc).fetched == g.fetched + rest.fetched;
        assert multiset(g.fetched + rest.fetched)[whole] == multiset(g.fetched)[whole] + multiset(rest.fetched)[whole];
      }
    }
  }

  /** `grab_candidates`' loop over the mentions, which it updates in place. */
  method GrabLoop(mentions: array<Record>, look: Lookup, voc: Record) returns (vocab: Record, fetched: seq<StoreCall>, err: Option<Error>)
    modifies mentions
    ensures Grab(old(mentions[..]), look, voc) == GrabRun(mentions[..], vocab, fetched, err)
  {
    ghost var ms := mentions[..];
    vocab, fetched, err := voc, [], None;
    var i := 0;
    assert AfterCalls([], Grab(ms, look, voc)) == Grab(ms, look, voc);
    while i < mentions.Length
      invariant 0 <= i <= mentions.Length
      invariant Grab(ms, look, voc) == AfterCalls(fetched, GrabFrom(mentions[..], i, GrabStep(look), vocab))
      invariant err.None?
    {
      ghost var before := mentions[..];
      var g := GrabOne(mentions[i], i, look, vocab);
      if g.err.Some? {
        assert GrabFrom(before, i, GrabStep(look), vocab) == GrabRun(before, g.vocab, g.fetched, g.err);
        vocab := g.vocab;
        fetched := fetched + g.fetched;
        err := g.err;
        return;
      }
      ghost var rest := GrabFrom(before[i := g.mention], i + 1, GrabStep(look), g.vocab);
      assert GrabFrom(before, i, GrabStep(look), vocab) == AfterCalls(g.fetched, rest);
      AfterCallsTwice(fetched, g.fetched, rest);
      mentions[i] := g.mention;
      assert mentions[..] == before[i := g.mention];
      vocab := g.vocab;
      fetched := fetched + g.fetched;
      i := i + 1;
    }
    assert fetched + [] == fetched;
  }

  // ---------------------------------------------------------------------------------------
  // `gen_grounding_prompt`
  // ---------------------------------------------------------------------------------------

  /** The two strings `gen_grounding_prompt` returns. */
  datatype PromptPair = PromptPair(mentionToGround: string, prompt: string)

  /** `linking_fields`, defaulting to `("label", "definition")`. */
  function LinkingFields(fields: Option<Fields>): Fields {
    if fields.Some? then fields.value else FieldCollection(["label", "definition"])
  }

  /**
   * The two candidate lines of one concept: `ID: <id>`, then its description and a line
   * break. A concept without an `ID` raises `KeyError`, and so does a description that fails;
   * a description that is not a string cannot be added to `"\n"`.
   */
  function ConceptLines(concept: Record, fields: Fields): (r: Result<seq<string>, Error>)
    ensures var d := GetDescription(PyDict(concept), fields);
            r.Ok? <==> HasKey(concept, "ID") && d.Ok? && d.value.PyStr?
    ensures !HasKey(concept, "ID") ==> r == Err(KeyError("ID"))
    ensures r.Ok? ==> r.value == ["ID: " + Str(Get(concept, "ID").value), GetDescription(PyDict(concept), fields).value.s + "\n"]
  {
    match Get(concept, "ID")
    case None => Err(KeyError("ID"))
    case Some(id) =>
      match GetDescription(PyDict(concept), fields)
      case Err(e) => Err(e)
      case Ok(d) => if d.PyStr? then Ok(["ID: " + Str(id), d.s + "\n"]) else Err(TypeError("+"))
  }

  function ConceptStep(fields: Fields): Record -> Result<seq<string>, Error> {
    c => ConceptLines(c, fields)
  }

  /** `_candidates` after the loop over the concepts: each concept's lines, in concept order. */
  function CandidateLines(concepts: seq<Record>, fields: Fields): Result<seq<string>, Error> {
    var run := Collect(concepts, ConceptStep(fields));
    if run.1.Some? then Err(run.1.value) else Ok(Flatten(run.0))
  }

  /**
   * Two lines per concept, in concept order; the first concept whose lines fail makes the
   * whole list fail with its error.
   */
  lemma CandidateLinesSpec(concepts: seq<Record>, fields: Fields)
    ensures var r := CandidateLines(concepts, fields);
            && (r.Ok? <==> forall i :: 0 <= i < |concepts| ==> ConceptLines(concepts[i], fields).Ok?)
            && (r.Err? ==> exists i :: 0 <= i < |concepts| && ConceptLines(concepts[i], fields) == Err(r.error))
            && (r.Ok? ==>
                  && |r.value| == 2 * |concepts|
                  && forall i :: 0 <= i < |concepts| ==>
                       r.value[2 * i] == ConceptLines(concepts[i], fields).value[0] &&
                       r.value[2 * i + 1] == ConceptLines(concepts[i], fields).value[1])
  {
    var step := ConceptStep(fields);
    forall x | step(x).Ok? ensures |step(x).value| == 2 {
      assert step(x) == ConceptLines(x, fields);
    }
    CollectPairs(concepts, step);
    assert forall i :: 0 <= i < |concepts| ==> step(concepts[i]) == ConceptLines(concepts[i], fields);
  }

  /** `'Here are some examples:\n' + "\n".join(examples) + '\n'` when there are examples. */
  function ExamplesPart(examples: seq<string>): (e: string)
    ensures examples == [] <==> e == []
    ensures examples != [] ==> StartsWith(e, "Here are some examples:\n")
  {
    if examples == [] then ""
    else
      var e := "Here are some examples:\n" + Join("\n", examples) + "\n";
      PrefixesOf("Here are some examples:\n", Join("\n", examples), "\n", "");
      assert e + "" == e;
      e
  }

  /** The prompt `gen_grounding_prompt` builds, in the order it builds it, after the instructions `grounding`. */
  function GroundingPromptFor(grounding: string, mention: Record, concepts: seq<Record>, linking: Option<Fields>, examples: seq<string>): (r: Result<PromptPair, Error>)
  {
    var fields := LinkingFields(linking);
    match CandidateLines(concepts, fields)
    case Err(e) => Err(e)
    case Ok(lines) =>
      match GetDescription(PyDict(mention), fields)
      case Err(e) => Err(e)
      case Ok(d) =>
        Ok(PromptPair("\n\n[Text]\n" + Str(d),
                      grounding + ExamplesPart(examples) + "Below are the concepts:\n\n" + Join("\n", lines)))
  }

  /**
   * The grounding prompt opens with the instructions, then the examples if there are any,
   * then the candidates; the candidates fail before the mention's description is looked at.
   * The text to ground is the mention's description under `[Text]`.
   */
  lemma GroundingPromptLayout(grounding: string, mention: Record, concepts: seq<Record>, linking: Option<Fields>, examples: seq<string>)
    ensures var r := GroundingPromptFor(grounding, mention, concepts, linking, examples);
            var fields := LinkingFields(linking);
            var lines := CandidateLines(concepts, fields);
            var d := GetDescription(PyDict(mention), fields);
            && (lines.Err? ==> r == Err(lines.error))
            && (lines.Ok? && d.Err? ==> r == Err(d.error))
            && (r.Ok? <==> lines.Ok? && d.Ok?)
            && (r.Ok? ==>
                  && r.value.prompt == grounding + ExamplesPart(examples) + "Below are the concepts:\n\n" + Join("\n", lines.value)
                  && StartsWith(r.value.prompt, grounding + ExamplesPart(examples) + "Below are the concepts:\n\n")
                  && (examples == [] ==> StartsWith(r.value.prompt, grounding + "Below are the concepts:\n\n"))
                  && (examples != [] ==> StartsWith(r.value.prompt, grounding + "Here are some examples:\n"))
                  && r.value.mentionToGround == "\n\n[Text]\n" + Str(d.value))
  {
    var r := GroundingPromptFor(grounding, mention, concepts, linking, examples);
    if r.Ok? {
      PromptPrefixes(grounding, examples, Join("\n", CandidateLines(concepts, LinkingFields(linking)).value));
    }
  }

  /** The parts a grounding prompt opens with, whatever the candidate text that ends it. */
  lemma PromptPrefixes(grounding: string, examples: seq<string>, candidates: string)
    ensures var heading := "Below are the concepts:\n\n";
            var prompt := grounding + ExamplesPart(examples) + heading + candidates;
            && StartsWith(prompt, grounding + ExamplesPart(examples) + heading)
            && (examples == [] ==> StartsWith(prompt, grounding + heading))
            && (examples != [] ==> StartsWith(prompt, grounding + "Here are some examples:\n"))
  {
    var heading := "Below are the concepts:\n\n";
    PrefixesOf(grounding, ExamplesPart(examples), heading, candidates);
    if examples != [] {
      var intro, shown := "Here are some examples:\n", Join("\n", examples) + "\n";
      assert grounding + ExamplesPart(examples) + heading + candidates == grounding + intro + shown + (heading + candidates);
      PrefixesOf(grounding, intro, shown, heading + candidates);
    }
  }

  // ---------------------------------------------------------------------------------------
  // `ground`
  // ---------------------------------------------------------------------------------------

  /** The candidate keys `ground` passes on, in this order. */
  const GroundingKeys: seq<string> := ["ID", "label", "definition", "synonyms"]

  /** `{k: c.get(k) for k in keys if k in c}`: the items of `c` under `keys`, in the order of `keys`. */
  function KeepKeys(c: Record, keys: seq<string>): (r: Record)
    ensures forall k :: Get(r, k) == if k in keys then Get(c, k) else None
    ensures (forall i, j :: 0 <= i < j < |keys| ==> keys[i] != keys[j]) ==> UniqueKeys(r)
  {
    if keys == [] then []
    else
      var rest := KeepKeys(c, keys[1..]);
      assert forall i, j :: 0 <= i < j < |keys| - 1 ==> keys[1..][i] == keys[i + 1] && keys[1..][j] == keys[j + 1];
      if HasKey(c, keys[0]) then [(keys[0], Get(c, keys[0]).value)] + rest else rest
  }

  /** One candidate as `ground` restricts it. */
  function Restrict(c: Record): (r: Record)
    ensures forall k :: Get(r, k) == if k in GroundingKeys then Get(c, k) else None
    ensures UniqueKeys(r)
  {
    KeepKeys(c, GroundingKeys)
  }

  function RestrictAll(cs: seq<Record>): (rs: seq<Record>)
    ensures |rs| == |cs| && forall i :: 0 <= i < |cs| ==> rs[i] == Restrict(cs[i])
  {
    seq(|cs|, i requires 0 <= i < |cs| => Restrict(cs[i]))
  }

  /** `m["concepts"]` as the list of candidate records it holds. */
  function CandidatesOf(m: Record): (r: Result<seq<Record>, Error>)
    ensures r.Ok? ==> Get(m, "concepts") == Some(PyList(AsDicts(r.value)))
  {
    match Get(m, "concepts")
    case None => Err(KeyError("concepts"))
    case Some(v) =>
      if v.PyList? && forall i :: 0 <= i < |v.items| ==> v.items[i].PyDict? then
        var cs := seq(|v.items|, i requires 0 <= i < |v.items| => v.items[i].entries);
        assert AsDicts(cs) == v.items;
        Ok(cs)
      else Err(TypeError("concepts"))
  }

  /** `{"id": uri[0], "confidence": conf[0]}`. */
  function FewShot(g: Grounding): Value {
    PyDict([("id", PyStr(g.id)), ("confidence", PyStr(g.confidence))])
  }

  /** `m | {"few_shot": ...}` for an accepted grounding, `m` itself otherwise. */
  function Accept(m: Record, v: Option<Grounding>): (r: Record)
    ensures v.None? ==> r == m
    ensures forall k :: Get(r, k) == if k == "few_shot" && v.Some? then Some(FewShot(v.value)) else Get(m, k)
  {
    if v.Some? then Set(m, "few_shot", FewShot(v.value)) else m
  }

  /** `with_backup and m.get("few_shot")`: the mention was resolved by the exact-match backup. */
  predicate Resolved(m: Record, withBackup: bool) {
    withBackup && Get(m, "few_shot").Some? && Truthy(Get(m, "few_shot").value)
  }

  /** The arguments of `ground` its loop uses; `grounding` is the instruction text and `model` the chat model already chosen. */
  datatype GroundConfig = GroundConfig(grounding: string, withBackup: bool, linking: Option<Fields>, examples: seq<string>, confidence: Allowed, model: string)

  /** The result `ground` appends for one mention, and the request it made for it, if any. */
  datatype Grounded = Grounded(mention: Record, asked: Option<ChatCall>)

  /** One iteration of `ground`'s loop. */
  function GroundOne(m: Record, cfg: GroundConfig, llm: Chat): Result<Grounded, Error> {
    if Resolved(m, cfg.withBackup) then Ok(Grounded(m, None))
    else
      match CandidatesOf(m)
      case Err(e) => Err(e)
      case Ok(cs) =>
        match GroundingPromptFor(cfg.grounding, m, RestrictAll(cs), cfg.linking, cfg.examples)
        case Err(e) => Err(e)
        case Ok(pr) =>
          var call := ChatCall(cfg.model, pr.prompt, pr.mentionToGround);
          Ok(Grounded(Accept(m, Verdict(llm(call), cfg.confidence)), Some(call)))
  }

  function GroundStep(cfg: GroundConfig, llm: Chat): Record -> Result<Grounded, Error> {
    m => GroundOne(m, cfg, llm)
  }

  /** The results of the loop, in order. */
  function Results(outs: seq<Grounded>): (rs: seq<Record>)
    ensures |rs| == |outs| && forall i :: 0 <= i < |outs| ==> rs[i] == outs[i].mention
  {
    if outs == [] then [] else Results(outs[..|outs| - 1]) + [outs[|outs| - 1].mention]
  }

  /** The requests the loop made, in order. */
  function Asked(outs: seq<Grounded>): seq<ChatCall> {
    if outs == [] then []
    else Asked(outs[..|outs| - 1]) + (if outs[|outs| - 1].asked.Some? then [outs[|outs| - 1].asked.value] else [])
  }

  lemma AskedAppend(outs: seq<Grounded>, g: Grounded)
    ensures Asked(outs + [g]) == Asked(outs) + (if g.asked.Some? then [g.asked.value] else [])
    ensures Results(outs + [g]) == Results(outs) + [g.mention]
  {
    assert (outs + [g])[..|outs|] == outs;
  }

  /**
   * A resolved mention passes through with no request made. Any other mention gets a request
   * whose prompt lists its candidates restricted to ID, label, definition and synonyms; it
   * gains `few_shot` exactly when the reply is accepted, and is otherwise returned as it was.
   */
  lemma GroundOneSpec(m: Record, cfg: GroundConfig, llm: Chat)
    ensures Resolved(m, cfg.withBackup) ==> GroundOne(m, cfg, llm) == Ok(Grounded(m, None))
    ensures !Resolved(m, cfg.withBackup) && GroundOne(m, cfg, llm).Ok? ==>
              var cs := CandidatesOf(m);
              var pr := GroundingPromptFor(cfg.grounding, m, RestrictAll(cs.value), cfg.linking, cfg.examples);
              var call := ChatCall(cfg.model, pr.value.prompt, pr.value.mentionToGround);
              var g := GroundOne(m, cfg, llm).value;
              && cs.Ok? && pr.Ok? && g.asked == Some(call)
              && (forall i :: 0 <= i < |cs.value| ==>
                    forall k :: Get(RestrictAll(cs.value)[i], k) == if k in GroundingKeys then Get(cs.value[i], k) else None)
              && (Verdict(llm(call), cfg.confidence).Some? ==>
                    Get(g.mention, "few_shot") == Some(FewShot(Verdict(llm(call), cfg.confidence).value)))
              && (Verdict(llm(call), cfg.confidence).None? ==> g.mention == m)
              && (forall k :: k != "few_shot" ==> Get(g.mention, k) == Get(m, k))
  {
    if !Resolved(m, cfg.withBackup) && GroundOne(m, cfg, llm).Ok? {
      var cs := CandidatesOf(m);
      assert cs.Ok?;
      var pr := GroundingPromptFor(cfg.grounding, m, RestrictAll(cs.value), cfg.linking, cfg.examples);
      assert pr.Ok?;
      var call := ChatCall(cfg.model, pr.value.prompt, pr.value.mentionToGround);
      assert GroundOne(m, cfg, llm).value == Grounded(Accept(m, Verdict(llm(call), cfg.confidence)), Some(call));
    }
  }

  /** `ground`'s results are one per mention, in mention order, each the outcome of its own iteration. */
  lemma GroundInOrder(ms: seq<Record>, cfg: GroundConfig, llm: Chat)
    ensures var run := Collect(ms, GroundStep(cfg, llm));
            run.1.None? ==>
              && |Results(run.0)| == |ms|
              && forall i :: 0 <= i < |ms| ==> GroundOne(ms[i], cfg, llm) == Ok(run.0[i]) && Results(run.0)[i] == run.0[i].mention
  {
    CollectSpec(ms, GroundStep(cfg, llm));
  }

  // ---------------------------------------------------------------------------------------
  // `extract`
  // ---------------------------------------------------------------------------------------

  /** The system prompt of `extract`'s first request. */
  function ExtractPrompt(texts: Texts, category: string): string {
    texts.extractOpening + category + texts.extractMiddle + Split(category, ":")[0] + texts.extractClosing
  }

  /** The user message of the define-mode request. */
  function DefineInstruction(text: string, mentions: seq<string>): string {
    "\nHere is the text:\n" + text + "\nHere is the list of entities:\n" + Join(", ", mentions)
  }

  /** `{"label": mention.strip()}`. */
  function LabelRecord(mention: string): Record {
    [("label", PyStr(Strip(mention)))]
  }

  /** The records of `extract` without define mode: one per mention, in order. */
  function LabelRecords(mentions: seq<string>): (rs: seq<Record>)
    ensures |rs| == |mentions| && forall i :: 0 <= i < |mentions| ==> rs[i] == LabelRecord(mentions[i])
  {
    seq(|mentions|, i requires 0 <= i < |mentions| => LabelRecord(mentions[i]))
  }

  /** The label loop of `extract`. */
  method LabelAll(mentions: seq<string>) returns (parsed: seq<Record>)
    ensures parsed == LabelRecords(mentions)
  {
    parsed := [];
    var i := 0;
    while i < |mentions|
      invariant 0 <= i <= |mentions|
      invariant parsed == LabelRecords(mentions[..i])
    {
      assert LabelRecords(mentions[..i + 1]) == LabelRecords(mentions[..i]) + [LabelRecord(mentions[i])];
      parsed := parsed + [LabelRecord(mentions[i])];
      i := i + 1;
    }
    assert mentions[..i] == mentions;
  }

  /** The define-mode loop of `extract` over the lines of the reply. */
  method DefineAll(lines: seq<string>) returns (parsed: seq<Record>)
    ensures parsed == Definitions(lines)
  {
    parsed := FilterMapEach(lines, DefinitionOf);
  }

  /** Mentions given in the requested format come back as one label record each, in order. */
  lemma ExtractedLabels(head: string, xs: seq<string>)
    requires ':' !in head
    requires forall i :: 0 <= i < |xs| ==> CleanMention(xs[i])
    ensures var rs := LabelRecords(ParseMentions(head + ": " + Join("; ", xs)));
            |rs| == |xs| && forall i :: 0 <= i < |xs| ==> rs[i] == [("label", PyStr(xs[i]))]
  {
    MentionsRoundTrip(head, xs);
    forall i | 0 <= i < |xs|
      ensures LabelRecord(xs[i]) == [("label", PyStr(xs[i]))]
    {
      LabelOfStripped(xs[i]);
    }
  }

  lemma LabelOfStripped(x: string)
    requires CleanMention(x)
    ensures LabelRecord(x) == [("label", PyStr(x))]
  {
    assert Strip(x) == x;
  }

  // ---------------------------------------------------------------------------------------
  // The recogniser
  // ---------------------------------------------------------------------------------------

  class Lumus {
    var generativeModel: string
    var embeddingModel: Option<string>
    const si: SemanticIndex
    /** The texts of its requests. */
    const texts: Texts
    /** The exact-match vocabulary, from lower-cased labels and synonyms to concept ids. */
    var terminology: Record
    /** The requests made to the chat model so far, oldest first. */
    var chats: seq<ChatCall>

    /** `Lumus(generative_model, embedding_model, indexer)`: the vocabulary starts empty. */
    constructor (generativeModel: string, embeddingModel: Option<string>, indexer: SemanticIndex)
      ensures this.generativeModel == generativeModel && this.embeddingModel == embeddingModel
      ensures si == indexer && texts == SourceTexts && terminology == [] && chats == []
    {
      this.generativeModel := generativeModel;
      this.embeddingModel := embeddingModel;
      si := indexer;
      texts := SourceTexts;
      terminology := [];
      chats := [];
    }

    /** The chat model a request uses: the one given, or the recogniser's own. */
    function ModelFor(model: Option<string>): string
      reads this`generativeModel
    {
      if model.Some? then model.value else generativeModel
    }

    /** `prompt(text, system, model)`: one request whose reply is returned. */
    method Prompt(text: string, system: string, model: Option<string>, llm: Chat) returns (reply: string)
      modifies this`chats
      ensures chats == old(chats) + [ChatCall(ModelFor(model), system, text)]
      ensures reply == llm(ChatCall(ModelFor(model), system, text))
    {
      var call := ChatCall(ModelFor(model), system, text);
      chats := chats + [call];
      reply := llm(call);
    }

    /** `gen_definition(concept)`. */
    method GenDefinition(concept: string, llm: Chat) returns (reply: string)
      modifies this`chats
      ensures chats == old(chats) + [ChatCall(generativeModel, texts.concept, concept)]
      ensures reply == llm(ChatCall(generativeModel, texts.concept, concept))
    {
      reply := Prompt(concept, texts.concept, None, llm);
    }

    /** `init_vocab(collection)`: every record stored in the collection is added to the vocabulary, in store order. */
    method InitVocab(collection: string, contents: seq<Stored>) returns (err: Option<Error>)
      modifies this`terminology, si`calls
      ensures (terminology, err) == Vocabulary.InitVocab(old(terminology), AllMetadatas(contents))
      ensures si.calls == old(si.calls) + [Fetch(collection, None)]
    {
      si.calls := si.calls + [Fetch(collection, None)];
      terminology, err := FillVocab(terminology, AllMetadatas(contents));
    }

    /** `gen_grounding_prompt(mention, concepts, linking_fields, examples)`. */
    method GenGroundingPrompt(mention: Record, concepts: seq<Record>, linking: Option<Fields>, examples: seq<string>)
      returns (r: Result<PromptPair, Error>)
      ensures r == GroundingPromptFor(texts.grounding, mention, concepts, linking, examples)
    {
      var systemPrompt := texts.grounding + ExamplesPart(examples);
      var fields := LinkingFields(linking);
      var candidates, err := CollectAll(concepts, ConceptStep(fields));
      if err.Some? {
        return Err(err.value);
      }
      systemPrompt := systemPrompt + "Below are the concepts:\n\n" + Join("\n", Flatten(candidates));
      var d := GetDescription(PyDict(mention), fields);
      if d.Err? {
        return Err(d.error);
      }
      return Ok(PromptPair("\n\n[Text]\n" + Str(d.value), systemPrompt));
    }

    /**
     * `grab_candidates(mentions, k, collection, fields, with_backup)`, with `knn` the
     * neighbours the index returns and `contents` the records of the collection. The query is
     * issued first; then each mention is updated in place.
     */
    method GrabCandidates(mentions: array<Record>, k: int, collection: string, fields: Fields, withBackup: bool,
                          knn: seq<seq<Record>>, contents: seq<Stored>) returns (err: Option<Error>)
      modifies mentions, this`terminology, si`calls
      ensures var search := Descriptions(QueryList(PyList(AsDicts(old(mentions[..])))), fields);
              && (search.Err? ==>
                    && err == Some(search.error) && mentions[..] == old(mentions[..])
                    && terminology == old(terminology) && si.calls == old(si.calls))
              && (search.Ok? ==>
                    var run := Grab(old(mentions[..]), Lookup(knn, k, withBackup, collection, contents), old(terminology));
                    && mentions[..] == run.mentions && terminology == run.vocab && err == run.err
                    && si.calls == old(si.calls) + [old(si.CollectionCall(collection, embeddingModel, None)),
                                                    Query(collection, search.value, k, None)] + run.fetched)
    {
      var knnTexts := si.SearchConcepts(PyList(AsDicts(mentions[..])), collection, k, None, fields, embeddingModel, None);
      if knnTexts.Err? {
        return Some(knnTexts.error);
      }
      var vocab, fetched;
      vocab, fetched, err := GrabLoop(mentions, Lookup(knn, k, withBackup, collection, contents), terminology);
      terminology := vocab;
      si.calls := si.calls + fetched;
    }

    /** One iteration of `ground`'s loop. */
    method GroundEach(m: Record, cfg: GroundConfig, llm: Chat) returns (r: Result<Grounded, Error>)
      requires texts.grounding == cfg.grounding
      modifies this`chats
      ensures r == GroundStep(cfg, llm)(m)
      ensures chats == old(chats) + if r.Ok? && r.value.asked.Some? then [r.value.asked.value] else []
    {
      if Resolved(m, cfg.withBackup) {
        return Ok(Grounded(m, None));
      }
      var cs := CandidatesOf(m);
      if cs.Err? {
        return Err(cs.error);
      }
      var pr := GenGroundingPrompt(m, RestrictAll(cs.value), cfg.linking, cfg.examples);
      if pr.Err? {
        return Err(pr.error);
      }
      var response := Prompt(pr.value.mentionToGround, pr.value.prompt, Some(cfg.model), llm);
      var call := ChatCall(cfg.model, pr.value.prompt, pr.value.mentionToGround);
      return Ok(Grounded(Accept(m, Verdict(response, cfg.confidence)), Some(call)));
    }

    /** `ground`'s loop over the mentions once their candidates are in place. */
    method GroundMentions(ms: seq<Record>, cfg: GroundConfig, llm: Chat) returns (results: seq<Record>, err: Option<Error>)
      requires texts.grounding == cfg.grounding
      modifies this`chats
      ensures var run := Collect(ms, GroundStep(cfg, llm));
              results == Results(run.0) && err == run.1 && chats == old(chats) + Asked(run.0)
    {
      ghost var step := GroundStep(cfg, llm);
      ghost var outs: seq<Grounded> := [];
      results, err := [], None;
      var i := 0;
      assert ms[0..] == ms;
      assert outs + Collect(ms, step).0 == Collect(ms, step).0;
      while i < |ms|
        invariant 0 <= i <= |ms|
        invariant Collect(ms, step).0 == outs + Collect(ms[i..], step).0
        invariant Collect(ms, step).1 == Collect(ms[i..], step).1
        invariant results == Results(outs) && chats == old(chats) + Asked(outs)
        invariant err.None?
      {
        CollectNext(ms, step, i, outs);
        var r := GroundEach(ms[i], cfg, llm);
        if r.Err? {
          err := Some(r.error);
          return;
        }
        AskedAppend(outs, r.value);
        AppendAssoc(old(chats), Asked(outs), if r.value.asked.Some? then [r.value.asked.value] else []);
        outs := outs + [r.value];
        results := results + [r.value.mention];
        i := i + 1;
      }
      assert ms[i..] == [];
      assert outs + [] == outs;
    }

    /**
     * `ground(mentions, collection, k, ...)`: the candidates are grabbed, then each mention is
     * grounded in turn. An omitted `confidence` is the default as written, the string "HIGH",
     * so every level that is a substring of "HIGH" is admitted.
     */
    method Ground(mentions: array<Record>, collection: string, k: int, embeddingFields: Fields, linking: Option<Fields>,
                  examples: seq<string>, confidence: Option<Allowed>, model: Option<string>, withBackup: bool,
                  knn: seq<seq<Record>>, contents: seq<Stored>, llm: Chat) returns (r: Result<seq<Record>, Error>)
      modifies mentions, this`terminology, this`chats, si`calls
      ensures var search := Descriptions(QueryList(PyList(AsDicts(old(mentions[..])))), embeddingFields);
              var run := Grab(old(mentions[..]), Lookup(knn, k, withBackup, collection, contents), old(terminology));
              var cfg := GroundConfig(texts.grounding, withBackup, linking, examples,
                                      if confidence.Some? then confidence.value else DefaultConfidence, ModelFor(model));
              var grounded := Collect(run.mentions, GroundStep(cfg, llm));
              && (search.Err? ==>
                    && r == Err(search.error) && chats == old(chats) && mentions[..] == old(mentions[..])
                    && terminology == old(terminology) && si.calls == old(si.calls))
              && (search.Ok? ==>
                    && mentions[..] == run.mentions && terminology == run.vocab
                    && si.calls == old(si.calls) + [old(si.CollectionCall(collection, embeddingModel, None)),
                                                    Query(collection, search.value, k, None)] + run.fetched)
              && (search.Ok? && run.err.Some? ==> r == Err(run.err.value) && chats == old(chats))
              && (search.Ok? && run.err.None? ==>
                    && chats == old(chats) + Asked(grounded.0)
                    && r == if grounded.1.Some? then Err(grounded.1.value) else Ok(Results(grounded.0)))
    {
      var e := GrabCandidates(mentions, k, collection, embeddingFields, withBackup, knn, contents);
      if e.Some? {
        return Err(e.value);
      }
      var cfg := GroundConfig(texts.grounding, withBackup, linking, examples,
                              if confidence.Some? then confidence.value else DefaultConfidence, ModelFor(model));
      r := GroundAll(mentions[..], cfg, llm);
    }

    /** The loop of `ground` and its result, once the candidates are in place. */
    method GroundAll(ms: seq<Record>, cfg: GroundConfig, llm: Chat) returns (r: Result<seq<Record>, Error>)
      requires texts.grounding == cfg.grounding
      modifies this`chats
      ensures var grounded := Collect(ms, GroundStep(cfg, llm));
              && chats == old(chats) + Asked(grounded.0)
              && r == if grounded.1.Some? then Err(grounded.1.value) else Ok(Results(grounded.0))
    {
      var results, err := GroundMentions(ms, cfg, llm);
      if err.Some? {
        return Err(err.value);
      }
      return Ok(results);
    }

    /**
     * `extract(text, categories, define, model)`: one request for the mentions, and in define
     * mode a second one for their definitions when there are any.
     */
    method Extract(text: string, categories: seq<string>, define: bool, model: Option<string>, llm: Chat)
      returns (r: Result<seq<Record>, Error>)
      modifies this`chats
      ensures categories == [] ==> r == Err(IndexError("list index out of range")) && chats == old(chats)
      ensures categories != [] ==>
                var first := ChatCall(ModelFor(model), ExtractPrompt(texts, categories[0]), text);
                var ms := ParseMentions(llm(first));
                var second := ChatCall(ModelFor(model), texts.define, DefineInstruction(text, ms));
                if ms == [] then r == Ok([]) && chats == old(chats) + [first]
                else if define then r == Ok(ParseDefinitions(llm(second))) && chats == old(chats) + [first, second]
                else r == Ok(LabelRecords(ms)) && chats == old(chats) + [first]
    {
      if categories == [] {
        return Err(IndexError("list index out of range"));
      }
      var reply := Prompt(text, ExtractPrompt(texts, categories[0]), model, llm);
      var mentions := ParseMentions(reply);
      if mentions == [] {
        return Ok([]);
      }
      if define {
        var parsed := DefineMentions(text, mentions, model, llm);
        return Ok(parsed);
      }
      var parsed := LabelAll(mentions);
      return Ok(parsed);
    }

    /** The define-mode request of `extract` and the parse of its reply. */
    method DefineMentions(text: string, mentions: seq<string>, model: Option<string>, llm: Chat)
      returns (parsed: seq<Record>)
      modifies this`chats
      ensures var second := ChatCall(ModelFor(model), texts.define, DefineInstruction(text, mentions));
              chats == old(chats) + [second] && parsed == ParseDefinitions(llm(second))
    {
      var defined := Prompt(DefineInstruction(text, mentions), texts.define, model, llm);
      parsed := DefineAll(Split(defined, "\n"));
    }
  }
}
