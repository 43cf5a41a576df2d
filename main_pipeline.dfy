/** The RAG pipeline helpers of backend/main.py: merging the extracted texts into source-tagged
    Documents, building the vector store and the module-level retriever, and the guard in
    front of the question-answering chain. */
module RagMain {
  import opened PyValues
  import opened Outcomes
  import opened PineconeInit
  import opened VectorStore

  const NoInputsMessage := "All inputs cannot be None."
  const NoDataMessage := "No data available for vector store processing."
  const VectorStoreFailedMessage := "Vector store creation failed. Check input data and embeddings."
  const RetrieverFailedMessage := "Retriever initialization failed. Ensure vector store is working."
  const ProcessedMessage := "Vector store and retriever initialized successfully."
  const RetrieverNotInitializedMessage := "Retriever is not initialized."

  /** Python truthiness of an optional string: present and non-empty. */
  predicate Given(x: Option<string>) {
    x.Some? && x.value != ""
  }

  /** At least one of the three texts is truthy. */
  predicate AnyGiven(transcript: Option<string>, pdfText: Option<string>, whatsappText: Option<string>) {
    Given(transcript) || Given(pdfText) || Given(whatsappText)
  }

  /** `vector_store()` gets its store: the public namespace resolves (`listed` says whether the
      index is listed already) and adding the documents raises nothing. */
  predicate StoreSucceeds(listed: bool, createResult: Option<CreateFailure>, failure: Option<AddFailure>) {
    ProvisionOutcome(None, false, listed, createResult).Ok? && failure.None?
  }

  /** The Document `final_texts` appends for one input, tagged with its source, if it is truthy. */
  function Tagged(x: Option<string>, tag: string): (r: seq<Document>)
    ensures |r| == if Given(x) then 1 else 0
  {
    if Given(x) then [Document(x.value, [("source", tag)])] else []
  }

  /** The documents of `final_texts`, in the order YouTube, PDF, WhatsApp. */
  function Merged(transcript: Option<string>, pdfText: Option<string>, whatsappText: Option<string>): (r: seq<Document>)
    ensures |r| == (if Given(transcript) then 1 else 0) + (if Given(pdfText) then 1 else 0) + (if Given(whatsappText) then 1 else 0)
    ensures r == [] <==> !Given(transcript) && !Given(pdfText) && !Given(whatsappText)
  {
    Tagged(transcript, "youtube") + Tagged(pdfText, "pdf") + Tagged(whatsappText, "whatsapp")
  }

  /** The page contents of the documents whose metadata is exactly `{"source": tag}`. */
  function WithSource(docs: seq<Document>, tag: string): seq<string> {
    if docs == [] then []
    else (if docs[0].metadata == [("source", tag)] then [docs[0].pageContent] else []) + WithSource(docs[1..], tag)
  }

  lemma {:induction false} WithSourceAppend(a: seq<Document>, b: seq<Document>, tag: string)
    ensures WithSource(a + b, tag) == WithSource(a, tag) + WithSource(b, tag)
  {
    if a != [] {
      assert (a + b)[1..] == a[1..] + b;
      WithSourceAppend(a[1..], b, tag);
    } else {
      assert a + b == b;
    }
  }

  /** The document of one input is found under its own tag and under no other. */
  lemma TaggedWithSource(x: Option<string>, tag: string, query: string)
    ensures WithSource(Tagged(x, tag), query) == if Given(x) && tag == query then [x.value] else []
  {
    if Given(x) {
      assert Tagged(x, tag)[1..] == [];
    }
  }

  /** Looking up a tag in the merged documents looks it up in each input's documents. */
  lemma MergedWithSource(transcript: Option<string>, pdfText: Option<string>, whatsappText: Option<string>, query: string)
    ensures WithSource(Merged(transcript, pdfText, whatsappText), query)
      == WithSource(Tagged(transcript, "youtube"), query) + WithSource(Tagged(pdfText, "pdf"), query)
         + WithSource(Tagged(whatsappText, "whatsapp"), query)
  {
    var y := Tagged(transcript, "youtube");
    var p := Tagged(pdfText, "pdf");
    var w := Tagged(whatsappText, "whatsapp");
    WithSourceAppend(y + p, w, query);
    WithSourceAppend(y, p, query);
  }

  /** Each truthy input gives exactly one document tagged with its own source, carrying its
      text, and a falsy one gives none; no document carries an empty text. */
  lemma MergedOnePerInput(transcript: Option<string>, pdfText: Option<string>, whatsappText: Option<string>)
    ensures var docs := Merged(transcript, pdfText, whatsappText);
      WithSource(docs, "youtube") == (if Given(transcript) then [transcript.value] else [])
      && WithSource(docs, "pdf") == (if Given(pdfText) then [pdfText.value] else [])
      && WithSource(docs, "whatsapp") == (if Given(whatsappText) then [whatsappText.value] else [])
    ensures forall d :: d in Merged(transcript, pdfText, whatsappText) ==> d.pageContent != ""
  {
    var docs := Merged(transcript, pdfText, whatsappText);
    assert WithSource(docs, "youtube") == (if Given(transcript) then [transcript.value] else []) by {
      assert "youtube"[0] != "pdf"[0] && "youtube"[0] != "whatsapp"[0];
      OneSource(transcript, pdfText, whatsappText, "youtube");
    }
    assert WithSource(docs, "pdf") == (if Given(pdfText) then [pdfText.value] else []) by {
      assert "pdf"[0] != "youtube"[0] && "pdf"[0] != "whatsapp"[0];
      OneSource(transcript, pdfText, whatsappText, "pdf");
    }
    assert WithSource(docs, "whatsapp") == (if Given(whatsappText) then [whatsappText.value] else []) by {
      assert "whatsapp"[0] != "youtube"[0] && "whatsapp"[0] != "pdf"[0];
      OneSource(transcript, pdfText, whatsappText, "whatsapp");
    }
  }

  /** The merged documents under one tag: the text of each input carrying that tag. */
  lemma OneSource(transcript: Option<string>, pdfText: Option<string>, whatsappText: Option<string>, query: string)
    ensures WithSource(Merged(transcript, pdfText, whatsappText), query)
      == (if Given(transcript) && query == "youtube" then [transcript.value] else [])
         + (if Given(pdfText) && query == "pdf" then [pdfText.value] else [])
         + (if Given(whatsappText) && query == "whatsapp" then [whatsappText.value] else [])
  {
    MergedWithSource(transcript, pdfText, whatsappText, query);
    TaggedWithSource(transcript, "youtube", query);
    TaggedWithSource(pdfText, "pdf", query);
    TaggedWithSource(whatsappText, "whatsapp", query);
  }

  /** `final_texts(transcript, pdf_text, whatsapp_text)` (main.py:54-76): a `ValueError` when
      all three are falsy, otherwise one tagged Document per truthy input. The metadata holds
      only strings, which `filter_complex_metadata` keeps as they are. */
  method FinalTexts(transcript: Option<string>, pdfText: Option<string>, whatsappText: Option<string>)
    returns (r: Result<seq<Document>, Exception>)
    ensures r.Err? <==> !AnyGiven(transcript, pdfText, whatsappText)
    ensures r.Err? ==> r.error == Exception(ValueError, NoInputsMessage)
    ensures r.Ok? ==> r.value == Merged(transcript, pdfText, whatsappText) && r.value != []
  {
    if !Given(transcript) && !Given(pdfText) && !Given(whatsappText) {
      return Err(Exception(ValueError, NoInputsMessage));
    }
    var finalTexts: seq<Document> := [];
    if Given(transcript) {
      finalTexts := finalTexts + [Document(transcript.value, [("source", "youtube")])];
    }
    if Given(pdfText) {
      finalTexts := finalTexts + [Document(pdfText.value, [("source", "pdf")])];
    }
    if Given(whatsappText) {
      finalTexts := finalTexts + [Document(whatsappText.value, [("source", "whatsapp")])];
    }
    r := Ok(finalTexts);
  }

  /** `retrieval_chain(query, retriever)` (main.py:101-112): a `ValueError` without a
      retriever; otherwise the answer of the question-answering chain over that retriever,
      which `invoke` stands for. */
  function RetrievalChain(query: string, retriever: Option<Retriever>, invoke: (Retriever, string) -> Value)
    : (r: Result<Value, Exception>)
    ensures r.Err? <==> retriever.None?
    ensures r.Err? ==> r.error == Exception(ValueError, RetrieverNotInitializedMessage)
    ensures r.Ok? ==> r.value == invoke(retriever.value, query)
  {
    if retriever.None? then Err(Exception(ValueError, RetrieverNotInitializedMessage))
    else Ok(invoke(retriever.value, query))
  }

  /** The module-level state of main.py: the global `retriever`. */
  class RagState {
    var retriever: Option<Retriever>

    constructor ()
      ensures retriever == None
    {
      retriever := None;
    }

    /** `process_vector_store` as written (main.py:79-98): the dict `vector_store()` returns is
        handed to `retriver_data`, so on every successful store the global retriever is reset
        to `None` and a `ValueError` is raised. */
    method ProcessVectorStoreAsWritten(pc: PineconeClient, youtubeData: Option<string>, pdfData: Option<string>,
                                       whatsappData: Option<string>, createResult: Option<CreateFailure>,
                                       failure: Option<AddFailure>)
      returns (r: Response)
      modifies this, pc
      ensures !AnyGiven(youtubeData, pdfData, whatsappData) ==>
        r == Error(NoDataMessage) && retriever == old(retriever) && pc.records == old(pc.records)
        && pc.calls == old(pc.calls) && pc.indexes == old(pc.indexes)
      ensures AnyGiven(youtubeData, pdfData, whatsappData) && !StoreSucceeds(IndexName in old(pc.indexes), createResult, failure) ==>
        r == Raised(Exception(ValueError, VectorStoreFailedMessage)) && retriever == old(retriever)
      ensures AnyGiven(youtubeData, pdfData, whatsappData) && StoreSucceeds(IndexName in old(pc.indexes), createResult, failure) ==>
        r == Raised(Exception(ValueError, RetrieverFailedMessage)) && retriever == None
        && pc.records == old(pc.records)[(IndexName, PublicNamespace) :=
             old(pc.Stored(IndexName, PublicNamespace)) + Merged(youtubeData, pdfData, whatsappData)]
      ensures AnyGiven(youtubeData, pdfData, whatsappData) && ProvisionOutcome(None, false, IndexName in old(pc.indexes), createResult).Ok? ==>
        pc.records == old(pc.records)[(IndexName, PublicNamespace) :=
          old(pc.Stored(IndexName, PublicNamespace)) + Written(Merged(youtubeData, pdfData, whatsappData), failure)]
      ensures ProvisionOutcome(None, false, IndexName in old(pc.indexes), createResult).Err? ==> pc.records == old(pc.records)
      ensures AnyGiven(youtubeData, pdfData, whatsappData) ==>
        pc.calls == old(pc.calls) + ProvisionCalls(None, false, IndexName in old(pc.indexes), createResult)
      ensures AnyGiven(youtubeData, pdfData, whatsappData) ==>
        pc.indexes == if ProvisionOutcome(None, false, IndexName in old(pc.indexes), createResult).Ok?
                      then old(pc.indexes) + {IndexName} else old(pc.indexes)
    {
      if !Given(pdfData) && !Given(youtubeData) && !Given(whatsappData) {
        return Error(NoDataMessage);
      }
      var textData := FinalTexts(youtubeData, pdfData, whatsappData);
      // final_texts has already refused the all-falsy case, so its `if not text_data` guard
      // (main.py:88-89) never fires.
      assert textData.Ok? && textData.value != [];
      var vector := CreateVectorStore(pc, textData.value, createResult, failure);
      if vector.NoStore? {
        return Raised(Exception(ValueError, VectorStoreFailedMessage));
      }
      retriever := RetrieverData(ResultDict(vector));
      if retriever.None? {
        return Raised(Exception(ValueError, RetrieverFailedMessage));
      }
      r := Message(ProcessedMessage);
    }

    /** `process_vector_store` with the store inside `vector_store()`'s result handed to
        `retriver_data`: the retriever is set, with `k = 2`, exactly when the store was created
        and the texts stored in the public namespace. */
    method ProcessVectorStore(pc: PineconeClient, youtubeData: Option<string>, pdfData: Option<string>,
                              whatsappData: Option<string>, createResult: Option<CreateFailure>,
                              failure: Option<AddFailure>)
      returns (r: Response)
      modifies this, pc
      ensures !AnyGiven(youtubeData, pdfData, whatsappData) ==>
        r == Error(NoDataMessage) && retriever == old(retriever) && pc.records == old(pc.records)
        && pc.calls == old(pc.calls) && pc.indexes == old(pc.indexes)
      ensures r == Message(ProcessedMessage) <==>
        AnyGiven(youtubeData, pdfData, whatsappData) && StoreSucceeds(IndexName in old(pc.indexes), createResult, failure)
      ensures r == Message(ProcessedMessage) ==>
        retriever == Some(Retriever(Store(IndexName, PublicNamespace), SearchK))
        && pc.records == old(pc.records)[(IndexName, PublicNamespace) :=
             old(pc.Stored(IndexName, PublicNamespace)) + Merged(youtubeData, pdfData, whatsappData)]
      ensures r != Message(ProcessedMessage) ==> retriever == old(retriever)
      ensures AnyGiven(youtubeData, pdfData, whatsappData) && ProvisionOutcome(None, false, IndexName in old(pc.indexes), createResult).Ok? ==>
        pc.records == old(pc.records)[(IndexName, PublicNamespace) :=
          old(pc.Stored(IndexName, PublicNamespace)) + Written(Merged(youtubeData, pdfData, whatsappData), failure)]
      ensures ProvisionOutcome(None, false, IndexName in old(pc.indexes), createResult).Err? ==> pc.records == old(pc.records)
      ensures AnyGiven(youtubeData, pdfData, whatsappData) ==>
        pc.calls == old(pc.calls) + ProvisionCalls(None, false, IndexName in old(pc.indexes), createResult)
      ensures AnyGiven(youtubeData, pdfData, whatsappData) ==>
        pc.indexes == if ProvisionOutcome(None, false, IndexName in old(pc.indexes), createResult).Ok?
                      then old(pc.indexes) + {IndexName} else old(pc.indexes)
      ensures r != Message(ProcessedMessage) && r != Error(NoDataMessage) ==>
        r == Raised(Exception(ValueError, VectorStoreFailedMessage))
    {
      if !Given(pdfData) && !Given(youtubeData) && !Given(whatsappData) {
        return Error(NoDataMessage);
      }
      var textData := FinalTexts(youtubeData, pdfData, whatsappData);
      assert textData.Ok? && textData.value != [];
      var vector := CreateVectorStore(pc, textData.value, createResult, failure);
      if vector.NoStore? {
        return Raised(Exception(ValueError, VectorStoreFailedMessage));
      }
      retriever := RetrieverData(StoreValue(vector.retrievedVector));
      r := Message(ProcessedMessage);
    }
  }
}
