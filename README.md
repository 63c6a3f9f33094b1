# Recipe RAG core: rank fusion, metadata classification, index lifecycle

A Dafny model of the core of a retrieval-augmented question-answering system
over a corpus of recipe markdown files. Three classes are modelled.

- `RetrievalOptimizationModule` (`retrieval_optimization.dfy`).
  `_rrf_rerank` fuses the dense (vector) and lexical (BM25) result lists by
  Reciprocal Rank Fusion. A document at 0-based rank `r` adds
  `1/(k + r + 1)` to its key's score, with `k = 60`. The key is
  `hash(page_content)`. Keys are stably sorted by fused score, highest
  first. Each returned document gets its score written to
  `metadata['final_score']`. `hybrid_search` keeps the first `top_k` of the
  fused list.
- `DataPreparationModule` (`data_preparation.dfy`). `load_documents`
  creates one parent document per markdown file directly inside the data
  directory (the glob `*.md` does not descend into subdirectories),
  identified by the digest of its relative path, which is then its file
  name. All documents of one load therefore share the directory components
  of their paths, so their category is decided by the data directory.
  `_enhance_metadata` classifies each document:
  - `category` is the first entry of the category table whose key is a
    whole component of the source path, or "其他";
  - `dish_name` is the file stem;
  - `difficulty` comes from the longest run of '★' in the text, capped at
    five, or "未知".
- `IndexConstructionModule` (`index_construction.dfy`). It has two states:
  no store, or a store built or loaded. `add_documents` and
  `similarity_search` are guarded on the store's presence. `load_index`
  fails when the save path is missing.

Supporting modules:
- `stable_sort.dfy` specifies Python's `sorted(..., key=score, reverse=True)`.
  It proves that any stable descending sort gives the same list.
- `posix_path.dfy` models the parts of `pathlib.PurePosixPath` the classifier
  reads: `parts`, `name` and `stem`. The suffix, which the classifier never
  reads, is defined only to state what the stem drops.
- `common.dfy` holds the shared types: the `Document` class (its content is
  fixed; its metadata dictionary is updated in place), the metadata values,
  `Option`, `Result` and the Python exceptions raised.

The scoring loops, the annotation loop, the category loop with `break` and
the loading loops are methods with loop invariants. Each is proved against a
specification function (`Pass`, `RerankedDocs`, `CategoryOf`, `Enhanced`,
`ParentMetadata`), and the lemmas below prove the promised properties of
those functions.

Python's `hash` and `hashlib.md5` are function parameters. Nothing is
assumed about them. Equal contents always get equal keys, and two contents
that collide are merged into one entry.

Edge cases, as the code handles them:
- Equal fused scores keep dictionary insertion order, vector keys first and
  then the keys only BM25 retrieved, because `sorted` is stable.
- An empty data directory gives an empty list of documents.
- `hybrid_search` slices, so a negative `top_k` counts from the end of the
  fused list.
- The errors raised are `ValueError`, `FileNotFoundError` and whatever the
  index reader raises.

## Model

| member | source | states |
|---|---|---|
| RetrievalOptimization.Contribution | rag_modules/retrieval_optimization.py:77 | one document's contribution 1/(k+r+1) is positive and at most 1/(k+1), the top rank's |
| RetrievalOptimization.ListScoreSign | rag_modules/retrieval_optimization.py:73-78 | a list's score for a key is never negative, and is positive exactly when the key occurs in that list |
| RetrievalOptimization.ListScoreAtRank | rag_modules/retrieval_optimization.py:73-78 | a key occurring once, at 0-based rank r, scores exactly 1/(k+r+1) |
| RetrievalOptimization.FusedScoreFormula | rag_modules/retrieval_optimization.py:73-88 | with no repeated content in either list, the fused score is 1/(k+r_v+1) for the vector rank plus 1/(k+r_b+1) for the BM25 rank, an absent list adding 0 |
| RetrievalOptimization.FusedScoreExceedsEither | rag_modules/retrieval_optimization.py:78-88 | a key retrieved by both retrievers scores strictly more than its score from either list alone |
| RetrievalOptimization.FusedScoreBounds | rag_modules/retrieval_optimization.py:69-88 | with no repeated content in either list, every retrieved key's fused score lies in (0, 2/(k+1)] |
| RetrievalOptimization.RepeatedKeyExceedsBound | rag_modules/retrieval_optimization.py:73-78 | the bound needs distinct contents: a content returned three times scores more than 2/(k+1) |
| RetrievalOptimization.DistinctCorrect | rag_modules/retrieval_optimization.py:69-88 | the dictionary's key order holds every key of either list exactly once and nothing else |
| RetrievalOptimization.DistinctAppend | rag_modules/retrieval_optimization.py:73-88 | the key order is the vector list's first-appearance order followed by the keys only BM25 retrieved, in BM25 order |
| RetrievalOptimization.LastWithKey | rag_modules/retrieval_optimization.py:73-75 | the object kept for a key by one loop is one of that list's documents with that key |
| RetrievalOptimization.LastWithKeySnoc | rag_modules/retrieval_optimization.py:75 | a later document with the same key overwrites the kept object; other keys keep theirs |
| RetrievalOptimization.ChosenDoc | rag_modules/retrieval_optimization.py:75-85 | the object kept for a key is an input document with that key, and a BM25 document whenever BM25 retrieved the key |
| StableSort.StableSortDescCorrect | rag_modules/retrieval_optimization.py:92 | the sort is non-increasing by score, a permutation of the items and of their keys, and keeps the input order within each score |
| StableSort.StableSortUnique | rag_modules/retrieval_optimization.py:92 | any non-increasing list with the same items per score, in input order, equals the model's sort, so it is Python's stable sort |
| StableSort.SortedBlocksDetermine | rag_modules/retrieval_optimization.py:92 | two non-increasing lists with the same items per score are equal |
| StableSort.InsertDescWithScore | rag_modules/retrieval_optimization.py:92 | inserting into a sorted list puts the new item last among the items of equal score |
| RetrievalOptimization.RrfRankingCorrect | rag_modules/retrieval_optimization.py:69-92 | the sorted items have one entry per distinct key of either list, each with its fused score, non-increasing, ties in first-appearance order |
| RetrievalOptimization.RerankedDocsKeys | rag_modules/retrieval_optimization.py:69-101 | the result has one document per distinct key of either input, with no key twice and no key lost |
| RetrievalOptimization.RerankedDocsOrdered | rag_modules/retrieval_optimization.py:85-101 | the result comes from the inputs, a key BM25 retrieved is represented by a BM25 document, and fused scores never increase along the result |
| RetrievalOptimization.RerankedDocsEmpty | rag_modules/retrieval_optimization.py:69-105 | two empty lists fuse to an empty result |
| RetrievalOptimization.ScorePass | rag_modules/retrieval_optimization.py:73-78 | one scoring loop leaves the dictionaries and their key order in the state the specification function `Pass` gives |
| RetrievalOptimization.TallyStep | rag_modules/retrieval_optimization.py:73-78 | one loop iteration keeps every key's score equal to its fused score so far and its object equal to the chosen one, in first-appearance order |
| RetrievalOptimization.PassTallied | rag_modules/retrieval_optimization.py:83-88 | a whole loop over a list extends the tallied state by that list |
| RetrievalOptimization.BothPassesTallied | rag_modules/retrieval_optimization.py:69-88 | after both loops, each key of either list has its fused score and its chosen object, in first-appearance order |
| RetrievalOptimization.TalliedItems | rag_modules/retrieval_optimization.py:92 | after both loops, `doc_scores.items()` pairs each key, in insertion order, with its fused score |
| RetrievalOptimization.SortedLookup | rag_modules/retrieval_optimization.py:96-98 | every sorted key has an object, so the check at line 97 always holds, and no sorted key repeats |
| RetrievalOptimization.AnnotatePlan | rag_modules/retrieval_optimization.py:92-101 | after both loops, the objects of the sorted keys are the fused result and carry their fused scores |
| RetrievalOptimization.AnnotateSorted | rag_modules/retrieval_optimization.py:95-101 | the final loop returns each sorted key's object, sets its final_score to the key's score and changes no other document |
| RetrievalOptimization.Annotate | rag_modules/retrieval_optimization.py:92-101 | sorting and annotation return the fused result; each returned document's final_score is its fused score; other documents are unchanged |
| RetrievalOptimization.RrfRerank | rag_modules/retrieval_optimization.py:57-105 | `_rrf_rerank` returns the fused result and writes every returned document's fused score to its final_score, leaving other inputs unchanged |
| RetrievalOptimization.RetrievalOptimizationModule.constructor | rag_modules/retrieval_optimization.py:12-36 | the module keeps its chunks and records the configured vector retrieval depth and the BM25 depth 5 |
| RetrievalOptimization.RetrievalOptimizationModule.HybridSearch | rag_modules/retrieval_optimization.py:38-55 | the result is a prefix of the fused list of length min(top_k, number of distinct keys), Python's slice rules for a negative top_k, and every fused document is annotated |
| RetrievalOptimization.RrfRerankAsWritten | rag_modules/retrieval_optimization.py:83-88 | as written, a non-empty BM25 list raises NameError with no metadata written, and an empty one fuses as intended |
| RetrievalOptimization.ConstructAsWritten | rag_modules/retrieval_optimization.py:12-28 | as written, construction always raises AttributeError for `config`: `__init__` assigns only `vectorstore` and `chunks` before line 28 reads `self.config` |
| PosixPath.SplitSlashJoin | rag_modules/data_preparation.py:86-87 | splitting a path at '/' loses nothing: joining the slash-free pieces gives the path back |
| PosixPath.JoinSlashSplit | rag_modules/data_preparation.py:86-87 | splitting a join of slash-free pieces gives the pieces back |
| PosixPath.SignificantMembers | rag_modules/data_preparation.py:87 | `parts` drops exactly the empty and "." components |
| PosixPath.ComponentMembership | rag_modules/data_preparation.py:87-91 | an ordinary name is in `parts` exactly when it is a whole slash-delimited piece of the path |
| PosixPath.PartsOfRelative | rag_modules/data_preparation.py:86-87 | a relative path built from ordinary components has those components as its parts, and its name is the last one |
| PosixPath.PartsOfAbsolute | rag_modules/data_preparation.py:86-87 | an absolute path's parts are "/" followed by its components, and its name is the last one |
| PosixPath.LastDot | rag_modules/data_preparation.py:96 | `rfind('.')` returns the position of the last dot, or -1 when there is none |
| PosixPath.StemSuffix | rag_modules/data_preparation.py:96 | the stem and the final suffix split the name; a suffix is dropped exactly when the name has a dot, neither first nor last, followed by no other dot, and it runs from that dot; the stem is empty only for an empty name |
| PosixPath.StemExample | rag_modules/data_preparation.py:96 | the dish name of `红烧肉.md` is `红烧肉` |
| DataPreparation.FirstMatchSpec | rag_modules/data_preparation.py:90-93 | the table scan returns the value of the first key that is a component, and nothing exactly when no key is |
| DataPreparation.CategoryIsFirstMatch | rag_modules/data_preparation.py:13-24 | the category is the first matching table value in declaration order, "其他" exactly when no key matches, so always a table label or "其他" |
| DataPreparation.CategoryOfMeatDish | rag_modules/data_preparation.py:89-93 | a path under `meat_dish` is classified "荤菜" |
| DataPreparation.CategoryNotBySubstring | rag_modules/data_preparation.py:87-91 | keys match whole components, not substrings: a path under `meat_dish_x` is "其他" |
| DataPreparation.CategoryTableOrder | rag_modules/data_preparation.py:90-93 | when two keys are components, the earlier table entry wins whatever the path order: `/drink/soup/奶茶菜谱.md` is "汤品" |
| DataPreparation.ContainsFromSpec | rag_modules/data_preparation.py:100 | the substring test finds a pattern exactly when it occurs at some position |
| DataPreparation.ContainsStarsIffRun | rag_modules/data_preparation.py:100-109 | n stars in a row occur in the content exactly when its longest star run is at least n |
| DataPreparation.DifficultyMatchesLongestRun | rag_modules/data_preparation.py:25 | the difficulty is label n for the longest star run n capped at 5, "未知" when there is no star, so always one of the six labels |
| DataPreparation.DifficultyUnknownIffNoStar | rag_modules/data_preparation.py:108-111 | the difficulty is "未知" exactly when the content has no '★' |
| DataPreparation.DifficultyExample | rag_modules/data_preparation.py:100-106 | separate runs are not added: "★★ ★★★" is "中等" |
| DataPreparation.ClassifiedEntries | rag_modules/data_preparation.py:89-111 | the three writes add exactly category, dish_name and difficulty and keep every other entry |
| DataPreparation.EnhancedEntries | rag_modules/data_preparation.py:86-111 | enhancement sets only the three entries, each within its closed label set or to the file stem, and leaves source, parent_id and doc_type as they were |
| DataPreparation.LoadedMetadata | rag_modules/data_preparation.py:60-73 | a loaded document is marked "parent", its parent_id depends on its relative path alone, its source is its path, and its classification comes from path and content |
| DataPreparation.DataPreparationModule.constructor | rag_modules/data_preparation.py:27-37 | a new module has its data path and empty documents, chunks and child-to-parent map |
| DataPreparation.DataPreparationModule.SetCategory | rag_modules/data_preparation.py:89-93 | the default-then-scan loop with `break` writes the category the table gives and nothing else |
| DataPreparation.DataPreparationModule.SetDifficulty | rag_modules/data_preparation.py:99-111 | the `elif` chain writes the difficulty the star runs give and nothing else |
| DataPreparation.DataPreparationModule.EnhanceMetadata | rag_modules/data_preparation.py:79-111 | a string source gives the enhanced metadata; a float source raises TypeError before any write |
| DataPreparation.DataPreparationModule.EnhanceAll | rag_modules/data_preparation.py:72-73 | each loaded document is enhanced in place, and only the loaded documents change |
| DataPreparation.DataPreparationModule.ReadParents | rag_modules/data_preparation.py:50-70 | one new, distinct parent document per file, in file order, with its content and its parent metadata |
| DataPreparation.DataPreparationModule.LoadDocuments | rag_modules/data_preparation.py:43-77 | one new enhanced parent document per file, in file order; `documents` becomes the result; an empty directory gives an empty list |
| DataPreparation.DataPreparationModule.EnhanceMetadataAsWritten | rag_modules/data_preparation.py:86-90 | as written, a string source gets the default category and then raises AttributeError |
| DataPreparation.DataPreparationModule.LoadDocumentsAsWritten | rag_modules/data_preparation.py:43-77 | as written, any non-empty directory fails and `documents` keeps its old value; only an empty directory loads |
| IndexConstruction.VectorStore.constructor | rag_modules/index_construction.py:51 | a store built from chunks indexes exactly those chunks with the module's embedding model |
| IndexConstruction.VectorStore.AddDocuments | rag_modules/index_construction.py:67 | adding chunks appends them after the indexed ones |
| IndexConstruction.IndexConstructionModule.constructor | rag_modules/index_construction.py:14-26 | after construction there is no store and the embedding model is set up from the model name |
| IndexConstruction.IndexConstructionModule.SetupEmbeddings | rag_modules/index_construction.py:28-38 | the embedding model is the configured model on "cuda" with normalised embeddings, and the store is untouched |
| IndexConstruction.IndexConstructionModule.BuildVectorIndex | rag_modules/index_construction.py:40-53 | a new store over exactly the given chunks replaces the old one and is returned itself |
| IndexConstruction.IndexConstructionModule.AddDocuments | rag_modules/index_construction.py:55-68 | without a store it raises ValueError; with one the store grows by the new chunks |
| IndexConstruction.IndexConstructionModule.LoadIndex | rag_modules/index_construction.py:70-90 | a missing embedding model is set up first; a missing path raises FileNotFoundError and a failing reader re-raises, both leaving the store; otherwise the loaded store replaces it and is returned |
| IndexConstruction.IndexConstructionModule.SimilaritySearch | rag_modules/index_construction.py:92-110 | without a store it raises ValueError; otherwise it returns the store's search result |
| IndexConstruction.Lifecycle | rag_modules/index_construction.py:14-110 | a new module refuses to add and to search; after a build it adds and searches, and the store holds the built chunks followed by the added ones |

## Left out

- Floating point: scores are exact reals. Float rounding could in principle change the order of nearly equal scores.
- DataPreparation.DataPreparationModule.LoadDocuments: the source files are an input and may have any paths, including paths in subdirectories that the non-recursive glob `*.md` never yields.
- The RRF constant `k` is a natural number, while `_rrf_rerank` declares it `int`: a negative `k` would give negative contributions or a division by zero. The only caller passes the default 60, so nothing the program does is excluded.
- Python `hash` and `hashlib.md5` are arbitrary function parameters; `relative_to`, `resolve` and `as_posix` are replaced by a given relative path.
- The filesystem: `glob`, `open` and `Path.exists` become inputs (a sequence of source files, a path-exists flag, and what the index reader finds).
- FAISS, BM25Retriever and HuggingFaceEmbeddings internals. A store is the sequence of chunks it indexes. The retrievers' result lists and the store's search are inputs.
- IndexConstruction.IndexConstructionModule.AddDocuments: the truthiness test `not self.vectorstore` is modelled as a test for an absent store only.
- IndexConstruction.IndexConstructionModule.LoadIndex: the reader's failure is one opaque error; what it raises and the on-disk format are not modelled.
- RetrievalOptimization.FusedScoreBounds: holds only when neither list repeats a content; RepeatedKeyExceedsBound shows that it fails otherwise.
- RetrievalOptimization.RetrievalOptimizationModule.HybridSearch: the query and the retrievers' calls are not modelled; the two result lists are inputs.
- DataPreparation.DataPreparationModule.EnhanceMetadata: the only non-string source modelled is a float; Windows paths are not modelled, since the path is parsed as a POSIX path.
- PosixPath.StemSuffix: a name ending in a dot has no suffix, as in Python 3.13 and earlier; Python 3.14 gives such a name the suffix ".".
- Aliasing between metadata dictionaries of different documents is not modelled: each document owns its dictionary.
- Logging, `main.py` (orchestration), `config.py` (a settings record), `rag_module/generation_integration.py` (the language-model client) and the truncated duplicates in `rag_module/` are not part of this model.

## Findings

| source | as written | input that shows it | evidently intended | confidence | as-written member | corrected member |
|---|---|---|---|---|---|---|
| rag_modules/retrieval_optimization.py:85 | the BM25 loop assigns the undefined name `oc` | any call whose BM25 list is non-empty raises NameError | `doc_objects[doc_id] = doc`, so the BM25 object wins on overlap | not executed | RetrievalOptimization.RrfRerankAsWritten | RetrievalOptimization.RrfRerank |
| rag_modules/data_preparation.py:90 | the loop reads `self.CATEGORY_MAPPING`; the class defines `CATEGROY_MAPPING` | loading a directory with one markdown file raises AttributeError | iterate over the table defined at line 13 | not executed | DataPreparation.DataPreparationModule.LoadDocumentsAsWritten | DataPreparation.DataPreparationModule.LoadDocuments |
| rag_modules/retrieval_optimization.py:28 | `setup_retrievers` reads `self.config.retrieval_k`; `__init__` never sets `config` | constructing any instance raises AttributeError | a retrieval depth supplied to the module | not executed | RetrievalOptimization.ConstructAsWritten | RetrievalOptimization.RetrievalOptimizationModule.constructor |
