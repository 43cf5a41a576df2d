/** The vector store helpers (backend/services/vector_store.py): a Pinecone-backed store bound
    to one namespace of the shared index, and the retriever built from it. */
module VectorStore {
  import opened PyValues
  import opened Outcomes
  import opened PineconeInit

  /** A LangChain Pinecone store: the index it writes to and the namespace within it. */
  datatype Store = Store(index: string, namespace: string)

  /** `store.as_retriever(search_kwargs={"k": k})`: returns the `k` nearest documents. */
  datatype Retriever = Retriever(store: Store, k: nat)

  /** The number of documents `retriver_data`'s retriever returns per query. */
  const SearchK := 2

  /** What `vector_store()` returns: `None` when anything in it raised, otherwise the dict
      `{"message": ..., "retrieved_vector": store}`. */
  datatype StoreResult = NoStore | StoreDict(message: string, retrievedVector: Store)

  const StoreCreatedMessage := "Vector store created successfully"

  /** An argument handed to `retriver_data`: nothing, a store, or a `vector_store()` result dict. */
  datatype StoreArg = NoArg | StoreValue(store: Store) | ResultDict(result: StoreResult)

  /** `retriver_data(vector_store)` (vector_store.py:59-68): `None` for `None`, a retriever with
      `k = 2` for a store, and `None` for anything else, whose missing `as_retriever` raises an
      `AttributeError` that is caught and printed. */
  function RetrieverData(arg: StoreArg): (r: Option<Retriever>)
    ensures r.Some? <==> arg.StoreValue?
    ensures r.Some? ==> r.value.store == arg.store && r.value.k == SearchK
  {
    match arg
    case NoArg => None
    case StoreValue(s) => Some(Retriever(s, SearchK))
    case ResultDict(_) => None
  }

  /** `vector_store(final_texts)` as written (vector_store.py:28-55): the `Pinecone` called at
      vector_store.py:48 is the client class imported at vector_store.py:5, not LangChain's
      store, and the client has no `add_documents`. Once the index is resolved the call fails,
      the exception is caught, and the function returns `None` with nothing stored. */
  method CreateVectorStoreAsWritten(pc: PineconeClient, documents: seq<Document>, createResult: Option<CreateFailure>)
    returns (r: StoreResult)
    modifies pc
    ensures r == NoStore
    ensures pc.records == old(pc.records)
    ensures pc.calls == old(pc.calls) + ProvisionCalls(None, false, IndexName in old(pc.indexes), createResult)
    ensures pc.indexes ==
      if ProvisionOutcome(None, false, IndexName in old(pc.indexes), createResult).Ok? then old(pc.indexes) + {IndexName}
      else old(pc.indexes)
  {
    var pineconeInfo := pc.CreatePineconeIndex(None, false, createResult);
    if pineconeInfo.Err? {
      return NoStore;
    }
    // `Pinecone(index, embedding, namespace=namespace)` builds a client, whose missing
    // `add_documents` raises the AttributeError caught around the whole body.
    r := NoStore;
  }

  /** `vector_store(final_texts)` with its defaults `user_id=None, is_private=False`
      (vector_store.py:28-55), with line 48 building LangChain's Pinecone store as route.py
      does: the public namespace is resolved on `pc` and the documents are added there.
      `createResult` is what `create_index` does if it is called and `failure` the error the
      embedding or an upsert batch raises; every exception is caught and gives `None`,
      keeping whatever batches were written before it. */
  method CreateVectorStore(pc: PineconeClient, documents: seq<Document>,
                           createResult: Option<CreateFailure>, failure: Option<AddFailure>)
    returns (r: StoreResult)
    modifies pc
    ensures r.StoreDict? <==>
      ProvisionOutcome(None, false, IndexName in old(pc.indexes), createResult).Ok? && failure.None?
    ensures r.StoreDict? ==> r == StoreDict(StoreCreatedMessage, Store(IndexName, PublicNamespace))
    ensures r.StoreDict? ==>
      pc.records == old(pc.records)[(IndexName, PublicNamespace) := old(pc.Stored(IndexName, PublicNamespace)) + documents]
    ensures ProvisionOutcome(None, false, IndexName in old(pc.indexes), createResult).Ok? ==>
      pc.records == old(pc.records)[(IndexName, PublicNamespace) :=
        old(pc.Stored(IndexName, PublicNamespace)) + Written(documents, failure)]
    ensures ProvisionOutcome(None, false, IndexName in old(pc.indexes), createResult).Err? ==> pc.records == old(pc.records)
    ensures pc.calls == old(pc.calls) + ProvisionCalls(None, false, IndexName in old(pc.indexes), createResult)
    ensures pc.indexes ==
      if ProvisionOutcome(None, false, IndexName in old(pc.indexes), createResult).Ok? then old(pc.indexes) + {IndexName}
      else old(pc.indexes)
  {
    var pineconeInfo := pc.CreatePineconeIndex(None, false, createResult);
    if pineconeInfo.Err? {
      return NoStore;
    }
    var error := pc.AddDocuments(pineconeInfo.value.index, pineconeInfo.value.namespace, documents, failure);
    if error.Some? {
      return NoStore;
    }
    r := StoreDict(StoreCreatedMessage, Store(pineconeInfo.value.index, pineconeInfo.value.namespace));
  }
}
