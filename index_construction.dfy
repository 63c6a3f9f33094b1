/** `IndexConstructionModule`: holds the embedding model and the vector
    store, which is either absent (nothing built or loaded yet) or present.
    The store is modelled abstractly as the sequence of chunks it indexes;
    the embedding computation and the nearest-neighbour search of the
    underlying library are outside the model. */
module IndexConstruction {
  import opened Common

  const DefaultModelName: string := "BAAI/bge-small-zh-v1.5"
  const DefaultIndexSavePath: string := "./vector_index"
  const Device: string := "cuda"

  /** The embedding model as configured by `setup_embeddings`: a model name,
      the device it runs on, and whether embeddings are normalised. */
  datatype Embeddings = Embeddings(modelName: string, device: string, normalize: bool)

  /** A vector store: the chunks it indexes, in insertion order, and the
      embedding model it was built or loaded with. */
  class VectorStore {
    var chunks: seq<Document>
    const embeddings: Embeddings

    /** `FAISS.from_documents` and `FAISS.load_local`. */
    constructor (chunks: seq<Document>, embeddings: Embeddings)
      ensures this.chunks == chunks && this.embeddings == embeddings
    {
      this.chunks := chunks;
      this.embeddings := embeddings;
    }

    /** `add_documents` on the store: the new chunks are indexed after the
        existing ones. */
    method AddDocuments(newChunks: seq<Document>)
      modifies this
      ensures chunks == old(chunks) + newChunks
    {
      chunks := chunks + newChunks;
    }
  }

  class IndexConstructionModule {
    const modelName: string
    const indexSavePath: string
    var embeddings: Option<Embeddings>
    var vectorstore: VectorStore?

    /** Once constructed the module always has an embedding model. */
    ghost predicate Valid()
      reads this
    {
      embeddings.Some?
    }

    /** `__init__` (lines 14-26): no store yet, and the embedding model set
        up from the model name. */
    constructor (modelName: string, indexSavePath: string)
      ensures this.modelName == modelName && this.indexSavePath == indexSavePath
      ensures vectorstore == null
      ensures embeddings == Some(Embeddings(modelName, Device, true))
      ensures Valid()
    {
      this.modelName := modelName;
      this.indexSavePath := indexSavePath;
      embeddings := None;
      vectorstore := null;
      new;
      SetupEmbeddings();
    }

    /** `setup_embeddings` (lines 28-38). */
    method SetupEmbeddings()
      modifies this
      ensures embeddings == Some(Embeddings(modelName, Device, true))
      ensures vectorstore == old(vectorstore)
    {
      embeddings := Some(Embeddings(modelName, Device, true));
    }

    /** `build_vector_index` (lines 40-53): a new store over exactly the
        given chunks replaces any previous one, and is returned itself (not
        a copy), so the add and search guards pass from then on. */
    method BuildVectorIndex(chunks: seq<Document>) returns (store: VectorStore)
      requires Valid()
      modifies this
      ensures fresh(store) && store == vectorstore
      ensures store.chunks == chunks && store.embeddings == old(embeddings).value
      ensures embeddings == old(embeddings) && Valid()
    {
      store := new VectorStore(chunks, embeddings.value);
      vectorstore := store;
    }

    /** `add_documents` (lines 55-68): ValueError, with nothing changed,
        when there is no store; otherwise the store grows by the new
        chunks. */
    method AddDocuments(newChunks: seq<Document>) returns (r: Result<()>)
      modifies vectorstore
      ensures vectorstore == null ==> r == Err(ValueError("索引未构建，请先调用 build_vector_index 方法"))
      ensures vectorstore != null ==> r == Ok(()) && vectorstore.chunks == old(vectorstore.chunks) + newChunks
    {
      if vectorstore == null {
        return Err(ValueError("索引未构建，请先调用 build_vector_index 方法"));
      }
      vectorstore.AddDocuments(newChunks);
      r := Ok(());
    }

    /** `load_index` (lines 70-90). A missing embedding model is set up
        first. A missing save path raises FileNotFoundError and a failing
        reader re-raises its error; either way the old store stays. `saved`
        is what the reader finds at the path, `None` when it fails. */
    method LoadIndex(pathExists: bool, saved: Option<seq<Document>>) returns (r: Result<VectorStore>)
      modifies this
      ensures Valid()
      ensures old(embeddings).Some? ==> embeddings == old(embeddings)
      ensures old(embeddings).None? ==> embeddings == Some(Embeddings(modelName, Device, true))
      ensures !pathExists ==> r == Err(FileNotFoundError(indexSavePath)) && vectorstore == old(vectorstore)
      ensures pathExists && saved.None? ==> r == Err(LoadError) && vectorstore == old(vectorstore)
      ensures pathExists && saved.Some? ==>
        && r.Ok? && fresh(r.value) && r.value == vectorstore
        && r.value.chunks == saved.value && r.value.embeddings == embeddings.value
    {
      if embeddings.None? {
        SetupEmbeddings();
      }
      if !pathExists {
        return Err(FileNotFoundError(indexSavePath));
      }
      if saved.None? {
        return Err(LoadError);
      }
      var store := new VectorStore(saved.value, embeddings.value);
      vectorstore := store;
      r := Ok(store);
    }

    /** `similarity_search` (lines 92-110): ValueError when there is no
        store; otherwise what the store's search returns for the query.
        `search` stands for the library's nearest-neighbour search over the
        indexed chunks. */
    method SimilaritySearch(query: string, k: int, search: (seq<Document>, string, int) -> seq<Document>)
      returns (r: Result<seq<Document>>)
      ensures vectorstore == null ==> r == Err(ValueError("索引未加载，请先调用 load_index 方法"))
      ensures vectorstore != null ==> r == Ok(search(vectorstore.chunks, query, k))
    {
      if vectorstore == null {
        return Err(ValueError("索引未加载，请先调用 load_index 方法"));
      }
      r := Ok(search(vectorstore.chunks, query, k));
    }
  }

  /** The lifecycle end to end: a new module refuses to add or to search;
      after a build it accepts both, and the store holds the built chunks
      followed by the added ones. */
  method Lifecycle(chunks: seq<Document>, more: seq<Document>, query: string,
                   search: (seq<Document>, string, int) -> seq<Document>)
    returns (m: IndexConstructionModule, earlyAdd: Result<()>, earlySearch: Result<seq<Document>>,
             added: Result<()>, found: Result<seq<Document>>)
    ensures fresh(m) && m.vectorstore != null && fresh(m.vectorstore)
    ensures earlyAdd.Err? && earlySearch.Err? && added == Ok(())
    ensures m.vectorstore.chunks == chunks + more
    ensures found == Ok(search(chunks + more, query, 5))
  {
    m := new IndexConstructionModule(DefaultModelName, DefaultIndexSavePath);
    earlyAdd := m.AddDocuments(more);
    earlySearch := m.SimilaritySearch(query, 5, search);
    var store := m.BuildVectorIndex(chunks);
    added := m.AddDocuments(more);
    found := m.SimilaritySearch(query, 5, search);
  }
}
