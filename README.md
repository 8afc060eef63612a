# REAL-BioCR concept recogniser, modelled in Dafny

The repository recognises biomedical concepts in free text. `Lumus` (concept_recognizer.py)
asks a chat model for the mentions of a category in a text. It retrieves candidate concepts
for each mention from a `SemanticIndex` over a Chroma vector store (indexer.py). Optionally it
backs this up with an exact-match lookup in a vocabulary of labels and synonyms. Finally it
asks the chat model which candidate each mention refers to.

This project models the deterministic logic around those calls:

- **Indexer.**
  - How records become the text that is embedded: `get_description`.
  - How records become the metadata that is stored: `_object_metadata`.
  - Which embedding backend a model name selects: `_embedding_function`.
  - The defaults of the index and of its collections.
  - The `add` calls of `add_batch` and `add_concepts`.
  - The query of `search_concepts`.
- **Vocabulary.** The table `init_vocab` builds, and the `find_exact` lookup against it.
- **Candidate assembly** in `grab_candidates`: the first `k` neighbours of each mention, and the exact-match backup, which either resolves the mention or puts the matched record first.
- **Grounding prompt layout** in `gen_grounding_prompt`.
- **Grounding loop** of `ground` and its acceptance rule: the two regular-expression captures, the confidence test and the "none" rejection.
- **Mention-list and definition-line parsers** of `extract`.

External results are inputs:

- The chat model is a function `llm` from a request (`ChatCall`: model, system message, user message) to its reply. Every request is recorded in `Lumus.chats`.
- The neighbours the index returns are `knn: seq<seq<Record>>`.
- The records of a collection are `contents: seq<(id, metadata)>`.
- Every call to the vector store is recorded, in order, in `SemanticIndex.calls`.

Python values, truthiness and dictionaries are modelled in `PyValues`. A dictionary is an ordered list of key/value pairs. Python exceptions become `Err(Error)` results. The mention list that `grab_candidates` updates in place is an `array<Record>`.

Modules:

- `Wrappers`: Option and Result.
- `PyStrings`: the `str` methods used.
- `PyValues`: values, dictionaries, `str()`.
- `Steps`: the loop that stops at the first exception, and the map-and-filter comprehension.
- `Indexer`: indexer.py.
- `Vocabulary`: `init_vocab` and `find_exact`.
- `ReplyParsing`: how replies are read.
- `ConceptRecognizer`: the `Lumus` class and its loops.

## Model

| member | source | states |
|---|---|---|
| Indexer.GetDescription | indexer.py:21-32 | with no selection a dict is dumped as its truthy items in record order, and with a selection list as its truthy selected items in record order; it fails exactly when a selection list meets a non-dict (no `.items`), a missing single field raises `KeyError`, or a dumped value is a class object (`RepresenterError`); a string with no selection comes back unchanged; a single field returns the raw stored value |
| Indexer.Dump | indexer.py:25 | the safe dumper fails exactly when some item's value holds a class object, with `RepresenterError`; otherwise the result is the stripped block of exactly those items |
| Indexer.DescriptionShowsItem | indexer.py:23-30 | a truthy item (a selected one, with a selection) shows in the dump between the kept items before it and the kept items after it |
| Indexer.FilterAround | indexer.py:25 | a kept item stays in place between the kept items of what precedes and follows it |
| Indexer.TruthyRecordDumpedWhole | indexer.py:23-25 | a record whose values are all truthy is dumped whole, in its own order |
| Indexer.DescriptionOmitsFalsy | indexer.py:23-30 | a falsy item never reaches the description, with or without a selection |
| Indexer.SelectionOrderIrrelevant | indexer.py:29-30 | only which names are selected matters; the order comes from the record, not the selection |
| Indexer.SelectAllIsWholeRecord | indexer.py:23-30 | selecting every key describes the record exactly as no selection does (the truthy entries in record order) |
| Indexer.ObjectMetadata | indexer.py:57-62 | the result always has an `ID` key, and it has no repeated keys when the input has none |
| Indexer.ObjectMetadataFields | indexer.py:57-62 | every other key keeps its value exactly when that value is truthy and not a dict, list or class; `ID` is the kept `id`, or `""` |
| Indexer.SemanticIndex.constructor | indexer.py:34-49 | each omitted argument takes its default: `all-MiniLM-L6-v2`, `{"hnsw:space": "cosine"}`, `./db`; the client is opened at the path |
| Indexer.SemanticIndex.EmbeddingFunction | indexer.py:64-91 | no model raises `ValueError("Model must be specified")`; prefix `openai:` selects OpenAI ada-002; prefix `llama:` selects Ollama nomic-embed-text; anything else selects a SentenceTransformer named by the index's own model, not by the argument |
| Indexer.BackendIgnoresName | indexer.py:74-91 | two model names with the same known prefixes select the same backend |
| Indexer.SemanticIndex.CollectionSettings | indexer.py:94-99 | the model defaults to the index's model; the metadata defaults to the index's metadata with `model` set to that model, and every other key unchanged |
| Indexer.SemanticIndex.CollectionCall | indexer.py:94-105 | the collection is fetched or created under its own name, with the backend of the resolved model and the resolved metadata |
| Indexer.SemanticIndex.GetOrCreateCollection | indexer.py:94-105 | exactly that call is appended to the store's call log |
| Indexer.QueryList | indexer.py:162-163 | a non-list query becomes a one-element list, and a list is kept as it is |
| Indexer.Descriptions | indexer.py:171 | one description per query, in order; fails exactly when some description fails, with that query's error |
| Indexer.SemanticIndex.SearchConcepts | indexer.py:161-175 | the query texts are the descriptions of the wrapped queries; the collection call, then the query call, are logged; nothing is logged when a description raises |
| Indexer.Ids | indexer.py:151 | `str(o["id"])` per record, in order; a record without `id` raises `KeyError("id")` |
| Indexer.Metadatas | indexer.py:149 | one `_object_metadata` per record, in order |
| Indexer.Chunks | indexer.py:143 | consecutive non-empty slices of at most `size` items, all of length `size` except the last, ceil(n/size) of them |
| Indexer.ChunksFlatten | indexer.py:143 | the chunks put back together are the original list |
| Indexer.BatchCallSpec | indexer.py:145-156 | a chunk's `add` call has documents, metadatas and ids of the chunk's length, in chunk order (description, `_object_metadata`, `str(id)`); it fails exactly when a description fails or a record lacks `id` |
| Indexer.IndexBatchesSpec | indexer.py:143-156 | every chunk before the first failing one is sent, in order; the failing chunk's error is the loop's error; nothing after it is sent |
| Indexer.SemanticIndex.AddBatch | indexer.py:124-157 | `batch_size` defaults to 500; the collection call, then one `add` per chunk, are logged; the error is the first chunk's failure |
| Indexer.IndexStreamSpec | indexer.py:115-120 | one single-record `add` per (id, record) item, in order, up to the first failing description |
| Indexer.SemanticIndex.AddConcepts | indexer.py:108-121 | the collection call, then the stream's `add` calls, are logged; the error is the first failure |
| Steps.CollectSpec | indexer.py:143-156 | a loop that stops at the first exception: the outcomes before it stand, in order, and the error is the first failing item's |
| Steps.CollectAll | indexer.py:143-156 | the loop computes exactly that run |
| Steps.CollectPairs | concept_recognizer.py:75-78 | a loop whose every successful step yields two items fails exactly when some item fails, with that item's error, and otherwise lists item i's two outputs at 2i and 2i+1 |
| Steps.FilterMapOrigin | concept_recognizer.py:193 | every item a filtering comprehension keeps comes from some item of its input |
| Steps.FilterMapEach | concept_recognizer.py:206-213 | the append loop computes exactly the comprehension |
| PyStrings.Strip | concept_recognizer.py:193 | `strip()` is a slice `s[i..j]` with only whitespace outside it; it leaves no whitespace at either end, is empty exactly for all-whitespace input, and adds no character |
| PyStrings.StripContains | concept_recognizer.py:193 | text found in the lower-cased stripped string is found in the lower-cased original |
| PyStrings.StripIdempotent | concept_recognizer.py:193 | stripping twice is stripping once |
| PyValues.SetKeys | concept_recognizer.py:38 | `d[k] = v` keeps an existing key at its position and puts a new key last |
| Vocabulary.SynonymKeys | concept_recognizer.py:39-41 | one lower-cased key per `", "`-separated synonym, in order |
| Vocabulary.AddTerm | concept_recognizer.py:37-41 | a record succeeds exactly when it has an `id`, a string `label`, and falsy or string synonyms; then its label and synonym keys map to its id and every other key is unchanged |
| Vocabulary.InitVocab | concept_recognizer.py:36-41 | it succeeds exactly when every record does, and it never creates a repeated key |
| Vocabulary.InitVocabSticks | concept_recognizer.py:37-41 | once a record raises, the records after it change nothing |
| Vocabulary.InitVocabLastWriter | concept_recognizer.py:36-41 | each key maps to the id of the LAST record that writes it, as label or synonym; keys nobody writes keep their old value |
| Vocabulary.FindExact | concept_recognizer.py:87-95 | an error means the stripped pattern is not a key; a non-empty result is the vocabulary's value under the stripped pattern |
| Vocabulary.FoundIff | concept_recognizer.py:89-92 | `<x>` occurs in the joined bracketed keys exactly when `x` is one of the keys |
| Vocabulary.FindExactIsLookup | concept_recognizer.py:87-95 | for a literal lower-cased input without brackets and stripped keys, `find_exact` is `vocab[lower(input)]` when that key exists and `""` otherwise |
| Vocabulary.UnstrippedKeyRaises | concept_recognizer.py:89-94 | a key with trailing whitespace is found by the search of the stripped keys but raises `KeyError` in the lookup |
| ConceptRecognizer.AllMetadatas | concept_recognizer.py:37 | the metadatas of the collection, in store order |
| ConceptRecognizer.AddTermStep | concept_recognizer.py:37-41 | the loop body, inner synonym loop included, computes `AddTerm` |
| ConceptRecognizer.AddSynonyms | concept_recognizer.py:40-41 | the inner loop maps every lower-cased synonym to the id, later synonyms after earlier ones (`SetAll`) |
| ConceptRecognizer.FillVocab | concept_recognizer.py:36-41 | the loop computes `InitVocab` |
| ConceptRecognizer.Lumus.InitVocab | concept_recognizer.py:36-41 | the vocabulary becomes `InitVocab` of the stored records; one fetch of the whole collection is logged |
| ConceptRecognizer.Lumus.constructor | concept_recognizer.py:30-34 | the models and the index are recorded; the vocabulary starts empty |
| ConceptRecognizer.Lumus.Prompt | concept_recognizer.py:44-59 | one request with the given or default model, the system message and the text; the reply is the model's answer |
| ConceptRecognizer.Lumus.GenDefinition | concept_recognizer.py:63-64 | one request with CONCEPT_PROMPT as the system message and the concept as the text |
| ConceptRecognizer.Neighbours | concept_recognizer.py:108-111 | it succeeds exactly when the mention has at least `k` neighbours (always when `k <= 0`), and then gives exactly `k` of them |
| ConceptRecognizer.TakeNeighbours | concept_recognizer.py:108-111 | the loop gives the first `k` neighbours, in index order, or the `IndexError` |
| ConceptRecognizer.CandidateIds | concept_recognizer.py:118 | the candidates' ids in order; a candidate without `id` raises `KeyError` |
| ConceptRecognizer.MentionLabel | concept_recognizer.py:119 | the mention's string label; a missing label is `KeyError`, a non-string one has no `lower` |
| ConceptRecognizer.MetadatasOf | concept_recognizer.py:126 | the stored metadatas under the id; empty exactly when no record has that id |
| ConceptRecognizer.FetchMatch | concept_recognizer.py:126 | succeeds exactly when the id is a string that is stored, and is then a record stored under it; a non-string id is refused with `ValueError` |
| ConceptRecognizer.Backup | concept_recognizer.py:113-127 | the backup only fetches single ids from this collection; when it raises, the mention is unchanged |
| ConceptRecognizer.BackupOutcome | concept_recognizer.py:118-127 | no truthy match changes nothing; a match among the candidates' ids sets `few_shot = {id, "HIGH", exact: True}` and keeps the concepts; another match is fetched and its truthy fields go in front of the concepts, with no `few_shot` |
| ConceptRecognizer.GrabMention | concept_recognizer.py:107-129 | an iteration that raises leaves its mention unchanged |
| ConceptRecognizer.GrabMentionSpec | concept_recognizer.py:107-129 | too few neighbours raise `IndexError`; the concepts are `knn[m][:k]`; without the backup that is all; with it, a non-empty vocabulary is kept and the collection is not reloaded; an empty one is built after a whole-collection fetch |
| ConceptRecognizer.GrabFrom | concept_recognizer.py:107-131 | the loop keeps the number of mentions and never touches the mentions already done |
| ConceptRecognizer.GrabFromPlain | concept_recognizer.py:107-129 | from any position, without the backup, every mention gets its own first `k` neighbours and the vocabulary and store are untouched |
| ConceptRecognizer.GrabNoBackup | concept_recognizer.py:107-131 | without the backup, each mention gets exactly its first `k` neighbours; the loop raises exactly when some mention has too few |
| ConceptRecognizer.GrabFromKeeps | concept_recognizer.py:113-116 | iterations that keep a vocabulary keep it for the whole loop |
| ConceptRecognizer.GrabMentionLoadsOnce | concept_recognizer.py:113-116 | from an empty vocabulary, one iteration loads the collection at most once and leaves the vocabulary built from it |
| ConceptRecognizer.GrabVocabOnce | concept_recognizer.py:107-116 | a non-empty vocabulary is never rebuilt; when the collection yields one, the whole collection is read at most once per call |
| ConceptRecognizer.GrabOne | concept_recognizer.py:107-129 | the loop body computes one iteration |
| ConceptRecognizer.GrabLoop | concept_recognizer.py:107-131 | the in-place loop over the array ends with exactly the mentions, vocabulary, store calls and error of `Grab` |
| ConceptRecognizer.Lumus.GrabCandidates | concept_recognizer.py:85-131 | the query (descriptions of the mentions) is issued first, and its failure changes nothing; then the mentions, the vocabulary and the store log become those of the loop |
| ConceptRecognizer.ConceptLines | concept_recognizer.py:76-78 | `ID: <id>` and the description plus a line break; succeeds exactly when `ID` exists and the description is a string |
| ConceptRecognizer.CandidateLinesSpec | concept_recognizer.py:75-78 | two lines per concept at positions 2i and 2i+1, in concept order; fails exactly when some concept's lines fail, with the first failure |
| ConceptRecognizer.ExamplesPart | concept_recognizer.py:69-70 | empty exactly without examples; otherwise it opens with `Here are some examples:` |
| ConceptRecognizer.GroundingPromptLayout | concept_recognizer.py:66-82 | the candidates fail before the mention's description, and it succeeds exactly when neither fails; the prompt is the instructions, then the examples, then `Below are the concepts:`, then the candidate lines joined by line breaks, which end it; with examples, the instructions are followed by `Here are some examples:`; the text to ground is the description under `[Text]` |
| ConceptRecognizer.PromptPrefixes | concept_recognizer.py:68-80 | the prompt opens with the instructions, then the example heading when there are examples, then `Below are the concepts:`, whatever candidate text follows |
| ConceptRecognizer.Lumus.GenGroundingPrompt | concept_recognizer.py:66-82 | the method builds exactly that prompt pair, with GROUNDING_PROMPT |
| ConceptRecognizer.KeepKeys | concept_recognizer.py:155 | the record keeps exactly the listed keys that are present, with their values |
| ConceptRecognizer.Restrict | concept_recognizer.py:155 | a candidate keeps only `ID`, `label`, `definition`, `synonyms` |
| ConceptRecognizer.CandidatesOf | concept_recognizer.py:155 | the candidate records are those stored under `concepts` |
| ReplyParsing.Capture | concept_recognizer.py:164-165 | `findall(...)[0]`: none exactly when no position matches; else a non-empty run of class characters that starts right after the leftmost occurrence of the tag followed by a class character, and is maximal: the reply ends after it or the next character is outside the class |
| ReplyParsing.Verdict | concept_recognizer.py:164-169 | a grounding is accepted exactly when both captures exist, the allowed set admits the confidence and the id has no "none", and it is then that id and confidence; an accepted grounding has a non-empty one-line id and a non-empty capital confidence |
| ReplyParsing.CaptureAfter | concept_recognizer.py:164-165 | a reply with no earlier tag, then the tag, then a run of class characters, captures exactly that run |
| ReplyParsing.CurieReplyAccepted | concept_recognizer.py:164-169 | a CURIE id such as `HP:0001250`, colon included, is captured and accepted with `HIGH` |
| ReplyParsing.GroundingReplyCaptures | concept_recognizer.py:164-165 | in the requested reply format, for any one-line id that does not hold `confidence: `, the two captures are the id and the level |
| ReplyParsing.WellFormedReply | concept_recognizer.py:164-169 | such a reply is accepted exactly when the level is admitted and the id has no "none"; the grounding is that id and level |
| ReplyParsing.DefaultAdmitsFragments | concept_recognizer.py:134 | under the default `("HIGH")`, "HIGH", "H" and "IG" are admitted, "LOW" is not |
| ReplyParsing.DefaultAcceptsLevelH | concept_recognizer.py:164-166 | a reply `answer: C1` / `confidence: H` is accepted under the default |
| ReplyParsing.IntendedAdmitsOnlyHigh | concept_recognizer.py:134 | the tuple `("HIGH",)` admits "HIGH" only |
| ReplyParsing.IntendedWellFormedReply | concept_recognizer.py:164-169 | under `("HIGH",)`, a well-formed reply is accepted exactly when the level is HIGH |
| ConceptRecognizer.GroundOneSpec | concept_recognizer.py:146-169 | a resolved mention passes through with no request; any other gets one request over its restricted candidates, gains `few_shot {id, confidence}` exactly when the reply is accepted, and keeps every other key |
| ConceptRecognizer.GroundInOrder | concept_recognizer.py:145-170 | one result per mention, in order, each its own iteration's outcome |
| ConceptRecognizer.Lumus.GroundEach | concept_recognizer.py:146-169 | the loop body computes one iteration and logs its request, if any |
| ConceptRecognizer.Accept | concept_recognizer.py:166-169 | an accepted verdict sets `few_shot` to it and leaves every other key as it was; no verdict returns the mention unchanged |
| ConceptRecognizer.Lumus.GroundMentions | concept_recognizer.py:145-170 | the loop gives the run's results and error, and logs the run's requests in order |
| ConceptRecognizer.Lumus.GroundAll | concept_recognizer.py:145-170 | the loop's first error is raised; otherwise the results are the run's, and the run's requests are logged in order either way |
| ConceptRecognizer.Lumus.Ground | concept_recognizer.py:134-170 | a failing query raises and changes nothing; otherwise the mentions, the vocabulary and the store log are those of the candidate grab in every case; a failing grab raises before any request; otherwise the results and the requests are the grounding run's under the given `confidence`, or the default as written |
| ReplyParsing.MentionOf | concept_recognizer.py:193 | an item is dropped exactly when it strips to nothing or its lower-cased text has "none"; a kept item is the stripped item, non-empty, and its lower-cased text has no "none" |
| ReplyParsing.KeepMentions | concept_recognizer.py:193 | at most one mention per item, each non-empty, stripped and without "none"; every non-blank item without "none" is kept, stripped |
| Steps.FilterMapKeeps | concept_recognizer.py:193 | everything the comprehension makes of an item is in its result |
| ReplyParsing.MentionItemsOfList | concept_recognizer.py:192 | a reply `head: a; b; c` splits into `a` and the others with their leading space |
| ReplyParsing.MentionsRoundTrip | concept_recognizer.py:192-193 | a reply `head: ` followed by clean mentions joined by `; ` yields exactly those mentions, in order |
| ReplyParsing.EmptyMentionList | concept_recognizer.py:192-197 | a heading with nothing after it yields no mentions |
| ReplyParsing.NoneReplyIsEmpty | concept_recognizer.py:192-197 | a reply `None`, with or without a heading, yields no mentions |
| ReplyParsing.DefinitionSegments | concept_recognizer.py:207-209 | a line `a:b[:...]` yields label `a` and definition `b`, stripped; later segments are ignored |
| ReplyParsing.NoColonNoDefinition | concept_recognizer.py:207 | a line without a colon yields nothing |
| ReplyParsing.Definitions | concept_recognizer.py:206-213 | every record comes from some line of the reply |
| ReplyParsing.DefinitionLineRoundTrip | concept_recognizer.py:206-213 | `label: definition` yields that label and definition |
| ReplyParsing.DefinitionsRoundTrip | concept_recognizer.py:203-213 | a reply in the requested format yields one record per line, in order |
| ConceptRecognizer.LabelRecords | concept_recognizer.py:216-218 | one `{"label": m.strip()}` per mention, in order |
| ConceptRecognizer.LabelAll | concept_recognizer.py:216-218 | the loop computes those records |
| ConceptRecognizer.DefineAll | concept_recognizer.py:206-213 | the loop computes the define-mode records |
| ConceptRecognizer.Lumus.DefineMentions | concept_recognizer.py:202-213 | one request with the define prompt and the text and comma-joined mentions; the result is the parse of its reply |
| ConceptRecognizer.ExtractedLabels | concept_recognizer.py:192-218 | clean mentions in the requested format come back as `{"label": mention}` each, in order |
| ConceptRecognizer.Lumus.Extract | concept_recognizer.py:173-220 | no category raises `IndexError`; one request with the extraction prompt for the first category; no mentions gives `[]` with no second request; define mode makes a second request and parses its lines; otherwise one label record per mention |

## Left out

- The chat model and the network: every reply is produced by the parameter `llm`, and the OpenAI client is not modelled.
- The Chroma client, its collections, `add` and `query`: every call is recorded in `SemanticIndex.calls`. Neighbours and collection contents are given as the inputs `knn` and `contents`.
- Embedding computation and similarity ranking: foreign and numeric code.
- The exact output of `yaml.safe_dump`: `YamlDump` is a stand-in renderer over the filtered, ordered pairs. The contracts of `GetDescription` and `Dump` state which pairs are dumped and in which order, and when the safe dumper raises, not the YAML text.
- `chunk` from oaklib: it is modelled as consecutive slices, and `AddBatch` requires a positive batch size.
- Vocabulary.FindExact: the pattern is searched for as literal text; regex metacharacters in a label are not interpreted. The lookup lemma is stated for labels free of them.
- PyStrings.Lower: lower-cases ASCII letters only; Unicode case mapping is not modelled.
- Floats, tuples and sets as values: a selection of fields is modelled as a list of names.
- Equality between values of different Python types, such as `1 == True`: values compare structurally.
- The escaping `repr` applies to strings inside lists and dicts.
- Aliasing between the dictionaries of a mention and those of its candidates: records are values.
- Logging, `tqdm` progress bars and timing.
- The wording of the prompts: it is kept as data in `Texts`, and the layout lemmas take the instruction text as a parameter.
- Categories that are not strings in `extract`.
- ConceptRecognizer.Lumus.GenGroundingPrompt: on an error, the partly built `_candidates` list is discarded with the exception, and it is not modelled.

## Findings

| source | as written | input that shows it | evidently intended | confidence | as-written member | corrected member |
|---|---|---|---|---|---|---|
| concept_recognizer.py:134 | the default `confidence=("HIGH")` is the string `"HIGH"`, so `conf[0] in confidence` is a substring test; `Lumus.Ground` uses this default as written | the reply `answer: C1` then `confidence: H` is accepted, and the level `IG` is admitted too | the one-element tuple `("HIGH",)`, which admits `HIGH` only | not executed | ReplyParsing.DefaultAcceptsLevelH | ReplyParsing.IntendedWellFormedReply |
