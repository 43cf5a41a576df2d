# Insightify backend, modelled in Dafny

Insightify is a retrieval-augmented chat backend. Users upload sources through HTTP handlers:
- a PDF, turned into per-page Markdown records;
- a YouTube URL, whose caption track is fetched;
- a zipped WhatsApp chat export, rewritten line by line as Markdown;
- a spreadsheet.

Each handler stores its result in one slot of a module-level `extracted_data` dict. A commit
handler:
- converts the four slots to strings;
- strips them and drops the blank ones;
- chunks them;
- wraps every chunk in a LangChain `Document` tagged `{"source": "uploaded_data"}`;
- resolves a Pinecone index and namespace (one shared index `rag-database`; a `public`
  namespace, or `user_<id>` in private mode);
- adds the documents there;
- binds the store for the retrieval handler, which answers questions over it.

A second, older pipeline in `main.py` merges YouTube, PDF and WhatsApp texts into tagged
Documents. It builds a vector store through `vector_store()` and sets a global retriever.

The Dafny project models these pieces:

| file | module | models |
|---|---|---|
| `outcomes.dfy` | `Outcomes` | `Option` and `Result` |
| `strings.dfy` | `PyStrings` | the Python `str` operations the code uses: `strip`, `find`, `split`, `join`, `startswith`, `endswith`, `in` |
| `values.dfy` | `PyValues` | dynamically typed Python values, truthiness, `str()`/`repr()`, `dict.get`, `str.join`, `Document`, exceptions, and the dicts handlers return |
| `whatsapp.dfy` | `WhatsApp` | the chat extractor, `backend/services/whatsapp.py` |
| `youtube.dfy` | `YouTube` | the transcript extractor, `backend/services/youtube_transcript.py` |
| `pdf.dfy` | `PdfTranscript` | the PDF extractor, `backend/services/pdf_transcript.py` |
| `pinecone_init.dfy` | `PineconeInit` | index and namespace resolution, `backend/services/pinecone_init.py`, with the Pinecone client as a class (listed indexes, management calls, stored documents) |
| `vector_store.dfy` | `VectorStore` | `vector_store` and `retriver_data` from `backend/services/vector_store.py` |
| `main_pipeline.dfy` | `RagMain` | `final_texts`, `process_vector_store` and `retrieval_chain` from `backend/main.py` |
| `route.dfy` | `Route` | the FastAPI handlers of `backend/route.py`, as a `Pipeline` class holding `extracted_data` and `retrieved_vector` |

Handlers that change module-level state are methods of a class whose fields are that state.
Each method's postcondition states the new state and the response in terms of specification
functions (`CommitOutcome`, `ProvisionOutcome`, `Transcript`, `ChatDocumentText`, ...). The
properties the code promises are lemmas about those functions.

Points where the code behaves differently from what its comments describe:
- The committed spreadsheet text is never blank. `text_to_string([excel_text])` wraps the slot
  in a list, so an empty slot gives the text `None` and an empty upload gives `[]`. Either one
  is chunked and stored (`Route.ExcelAlwaysCommitted`).
- The WhatsApp rewrite puts the line's own space after the colon, plus one more
  (`**Alice**:  hi` for `Alice: hi`). The model keeps both spaces.
- The retrieval handler asks for `k = 1` documents, while `retriver_data` asks for `k = 2`.

## Model

| member | source | states |
|---|---|---|
| PyStrings.StripSpec | backend/services/whatsapp.py:29 | `strip()` removes only whitespace, at both ends and all of it; the result is a slice of the input, empty exactly when the input is all whitespace |
| PyStrings.StripIdempotent | backend/route.py:157 | `strip()` is idempotent: stripping a stripped text changes nothing |
| PyStrings.StripRemovesFinalNewline | backend/services/whatsapp.py:24-29 | a line read by `readlines()` has no line feed left after `strip()` |
| PyStrings.SplitFields | backend/services/youtube_transcript.py:14 | `split("=")` gives one field exactly when there is no `=`, and no field contains `=` |
| PyStrings.JoinSplit | backend/services/youtube_transcript.py:14 | joining the fields of a split with the separator gives back the string |
| PyStrings.SplitJoin | backend/services/whatsapp.py:38-42 | splitting a join of separator-free parts gives back the parts |
| PyValues.DictGet | backend/route.py:146 | `get` returns the default when the key is absent, and an entry's value for that key when present |
| WhatsApp.TimestampLineBolded | backend/services/whatsapp.py:30-31 | a line opening with `[` and holding `]` is bolded whole, and `Unformat` reads it back |
| WhatsApp.SpeakerLineSplit | backend/services/whatsapp.py:32-33 | any other line with a colon is cut at its first colon, the speaker is bolded, and the rest is kept verbatim after `: ` |
| WhatsApp.BulletLine | backend/services/whatsapp.py:34-35 | a line with no timestamp and no colon becomes `- line` |
| WhatsApp.TimestampedMessageNotSplit | backend/services/whatsapp.py:30-33 | the timestamp rule takes precedence, so `[stamp] speaker:msg` is not split at its colon |
| WhatsApp.Rewrite | backend/services/whatsapp.py:28-35 | the rewrite of a stripped line adds at least two marker characters, and starts with `-` exactly when the line has neither a leading timestamp nor a colon |
| WhatsApp.FormatLine | backend/services/whatsapp.py:27-35 | each raw line is stripped, then rewritten: a bullet exactly when the stripped line has neither a leading timestamp nor a colon |
| WhatsApp.RewriteRoundTrip | backend/services/whatsapp.py:30-35 | every rewrite of a stripped line is undone by `Unformat` |
| WhatsApp.FormatLineRoundTrip | backend/services/whatsapp.py:29-35 | formatting a raw line loses only the whitespace around it |
| WhatsApp.FormattedLineHasNoNewline | backend/services/whatsapp.py:24-35 | a formatted read line holds no line feed |
| WhatsApp.FormatChat | backend/services/whatsapp.py:27-35 | the loop gives one formatted line per input line, in order |
| WhatsApp.ChatDocumentRoundTrip | backend/services/whatsapp.py:38-42 | splitting the document text at line feeds gives the formatted lines back, and unformatting them gives the stripped chat lines |
| WhatsApp.TextFiles | backend/services/whatsapp.py:14 | exactly the listing's names ending in `.txt` are kept |
| WhatsApp.TextFilesAppend | backend/services/whatsapp.py:14 | the filter keeps listing order: the `.txt` names of two listings in turn are those of their concatenation |
| WhatsApp.FirstChatFile | backend/services/whatsapp.py:14-19 | the chat file read is the first `.txt` name in listing order |
| WhatsApp.ExtractWhatsappChat | backend/services/whatsapp.py:14-46 | `None` without a `.txt` file or when decoding fails; otherwise one Document whose text is the first chat file's formatted lines joined by line feeds |
| YouTube.VideoId | backend/services/youtube_transcript.py:14 | `IndexError` (`None`) exactly when the URL has no `=`; the id never contains `=` |
| YouTube.VideoIdBetween | backend/services/youtube_transcript.py:14 | the id is the text between the first `=` and the next `=` or the end |
| YouTube.ConcatAppend | backend/services/youtube_transcript.py:16-18 | concatenating segment texts distributes over splitting the segment list |
| YouTube.SegmentInPlace | backend/services/youtube_transcript.py:16-18 | each segment's text appears in the transcript right after the texts before it |
| YouTube.Transcript | backend/services/youtube_transcript.py:11-21 | `None` for a URL without `=`; a text exactly when the id is found, the service answers and every segment has a text, and then it is the segments' texts concatenated |
| YouTube.ExtractTranscript | backend/services/youtube_transcript.py:11-21 | the loop computes `Transcript`; a URL without `=` gives `None` |
| YouTube.EmptyTrackGivesEmptyText | backend/services/youtube_transcript.py:16-19 | an empty caption track gives `""`, not `None` |
| PdfTranscript.PageDictFields | backend/services/pdf_transcript.py:26-32 | a dict page gives a dict with its text (default `""`), and metadata with its page number (default `None`) and source `pdf` |
| PdfTranscript.PageDict | backend/services/pdf_transcript.py:26-32 | a page gives a dict exactly when its record is a dict; another record raises |
| PdfTranscript.ExtractPdfTranscript | backend/services/pdf_transcript.py:2-37 | `None` when conversion fails or a page is not a dict; otherwise one page dict per page, in order |
| PineconeInit.ResolveTarget | backend/services/pinecone_init.py:33-38 | `ValueError` exactly in private mode without a user id; otherwise index `rag-database`, namespace `public`, or `user_<id>` owned by that user |
| PineconeInit.NamespacesIsolated | backend/services/pinecone_init.py:34 | different users get different private namespaces, and none of them is `public` |
| PineconeInit.PublicIgnoresUserId | backend/services/pinecone_init.py:34 | public mode resolves to the same target whatever the user id |
| PineconeInit.ProvisionOutcome | backend/services/pinecone_init.py:41-62 | success gives the resolved target; after validation, a failure happens exactly when `create_index` is called on an unlisted index and fails with an error other than `ALREADY_EXISTS`, which is re-raised |
| PineconeInit.MissingUserIdTouchesNothing | backend/services/pinecone_init.py:37-38 | a private request without a user id fails before any client call |
| PineconeInit.CreatedOnlyIfAbsent | backend/services/pinecone_init.py:43-55 | `create_index` is called exactly when the index is not listed and the request is valid |
| PineconeInit.ResolutionDeterministic | backend/services/pinecone_init.py:44-67 | every successful resolution of the same arguments gives the same handle, whether or not it created the index |
| PineconeInit.PineconeClient.constructor | backend/services/pinecone_init.py:19 | a fresh client lists the existing indexes and has no calls and no records |
| PineconeInit.PineconeClient.CreatePineconeIndex | backend/services/pinecone_init.py:21-67 | returns `ProvisionOutcome`, appends `ProvisionCalls` to the client's calls (nothing for a private request without a user id; otherwise `list_indexes`, then `create_index` only when the index is not listed, then `Index` only when resolution succeeds), records the index as existing on success, and stores nothing |
| PineconeInit.Written | backend/route.py:184-186 | a successful add writes every document; a failed one writes at most the leading documents its completed batches held, and nothing when it failed before the first |
| PineconeInit.PineconeClient.AddDocuments | backend/route.py:184-186 | the error exactly on failure; the namespace's records grow by `Written`, which is every document on success and the batches written before a failure otherwise; nothing is rolled back |
| PineconeInit.ResolveTwice | backend/services/pinecone_init.py:41-65 | after a successful resolution, a second one gives the same handle, only lists the index and opens it |
| VectorStore.RetrieverData | backend/services/vector_store.py:59-68 | a retriever with `k = 2` exactly for a store; `None` for `None` and for any other argument |
| VectorStore.CreateVectorStoreAsWritten | backend/services/vector_store.py:5-55 | as written: `None` for every input, with nothing stored; the client is listed, created and opened as `ProvisionCalls` says |
| VectorStore.CreateVectorStore | backend/services/vector_store.py:28-55 | corrected: a result dict exactly when the public namespace resolves and the documents are added there; `None` otherwise; once the namespace resolves, the documents written before any add failure stay stored, and nothing is stored when it does not resolve; the client's calls grow by `ProvisionCalls` and the index is recorded exactly when resolution succeeds |
| RagMain.Merged | backend/main.py:54-76 | one Document per truthy input, and none exactly when all three are falsy |
| RagMain.Tagged | backend/main.py:61-70 | one Document for a truthy input, none for a falsy one |
| RagMain.MergedOnePerInput | backend/main.py:54-76 | each truthy input appears under its own source tag exactly once with its text, a falsy one not at all, and no Document is empty |
| RagMain.FinalTexts | backend/main.py:54-76 | `ValueError` exactly when all three inputs are falsy; otherwise the merged Documents, never empty |
| RagMain.RetrievalChain | backend/main.py:101-112 | `ValueError` exactly without a retriever; otherwise the chain's answer over that retriever |
| RagMain.RagState.constructor | backend/main.py:49 | the global retriever starts as `None` |
| RagMain.RagState.ProcessVectorStoreAsWritten | backend/main.py:79-98 | as written: no data gives the error dict; a failed store raises, keeping the batches it wrote; a successful one stores the Documents, resets the retriever to `None` and raises; with data, the client's calls and indexes change as resolution says |
| RagMain.RagState.ProcessVectorStore | backend/main.py:79-98 | corrected: success exactly when some input is truthy and the store is created, setting the retriever to the public store with `k = 2`; a failed add keeps the batches it wrote; with data, the client's calls and indexes change as resolution says |
| Route.TextToString | backend/route.py:144-147 | a list becomes the space-join of its items' texts (`TypeError` exactly when one is not a string); any other value is kept when truthy and becomes `""` otherwise |
| Route.CommitTexts | backend/route.py:149-157 | an error exactly when a conversion fails or a converted value is not a string, the latter being the `AttributeError` of `.strip()` |
| Route.Converted | backend/route.py:149-152 | the four slots convert to four values |
| Route.ConvertedParts | backend/route.py:149-152 | when the slots convert, the four values are, in order, the conversions of the PDF, transcript and WhatsApp slots and of the spreadsheet slot wrapped in a list |
| Route.KeepNonBlankFour | backend/route.py:156-157 | four converted strings become their stripped texts, blank ones dropped, in order |
| Route.NonBlankAppend | backend/route.py:157 | the strip-and-filter comprehension distributes over concatenation |
| Route.CommitOrder | backend/route.py:149-157 | the committed texts are the four slots, converted, stripped and filtered, in the order PDF, transcript, WhatsApp, spreadsheet |
| Route.ExcelSlotText | backend/route.py:152 | the spreadsheet slot is converted by `str()` of the slot itself |
| Route.ExcelSlotNeverBlank | backend/route.py:115-157 | an empty or never-filled spreadsheet slot still gives a non-blank text (`None` or a list repr) |
| Route.ExcelAlwaysCommitted | backend/route.py:149-157 | whenever the texts convert, the last committed text is the spreadsheet slot's `str()` |
| Route.PdfSlotText | backend/route.py:144-149 | a PDF slot left by the PDF handler converts to the space-join of its page texts, in page order |
| Route.WhatsappSlotText | backend/route.py:144-151 | a WhatsApp slot holding the chat Document converts to `page_content='<chat>'` |
| Route.ChunkAllAppend | backend/route.py:159-163 | chunking keeps text order: the chunks of a concatenation are the concatenated chunks |
| Route.ChunksComeFromTexts | backend/route.py:159-165 | every committed chunk comes from the chunker's output for one of the texts |
| Route.ChunkPiecesKept | backend/route.py:159-163 | every piece the chunker gives for a text ends up in `ChunkAll`, the `chunked_texts` list; a failed chunker contributes the key `error` |
| Route.ChunkTexts | backend/route.py:159-163 | the loop computes `ChunkAll`: each text's chunks in turn, a failed chunker adding `error` |
| Route.UploadedDocuments | backend/route.py:171 | one Document per chunk |
| Route.UploadedDocumentsTagged | backend/route.py:171 | Document `i` wraps chunk `i` with exactly the metadata `{"source": "uploaded_data"}` |
| Route.UploadedContents | backend/route.py:171 | reading the Documents' texts back gives the chunks, in order |
| Route.CommitOutcome | backend/route.py:120-191 | no filled slot gives the error dict, and success is only ever the committed message, reached with at least one chunk and no add failure |
| Route.CommitSucceedsExactly | backend/route.py:120-191 | a commit succeeds exactly when some slot is truthy, the texts convert and give a chunk, the index resolves and the documents are added |
| Route.PrivateCommitNeedsUserId | backend/route.py:174-179 | a private commit without a user id returns `Failed to initialize Pinecone index: ` plus the resolver's message |
| Route.Pipeline.constructor | backend/route.py:58-59 | every slot starts `None` and no store is bound |
| Route.Pipeline.PreprocessPdf | backend/route.py:64-73 | only the PDF slot changes: it becomes the page dicts, or `None` |
| Route.Pipeline.ProcessYoutube | backend/route.py:79-83 | only the transcript slot changes: it becomes the transcript, or `None` |
| Route.Pipeline.StoreChat | backend/route.py:96-97 | only the WhatsApp slot changes: it becomes the extracted chat Document list, or `[]`; the chat text is returned exactly when there is one |
| Route.Pipeline.EmbeddingVectorStoreWhatsapp | backend/route.py:89-103 | as written: only the WhatsApp slot changes (the chat Document list, or `[]`); without a chat, the error dict; with one, `TypeError` from joining Documents |
| Route.Pipeline.EmbeddingVectorStoreWhatsappCorrected | backend/route.py:96-103 | corrected: with a chat, the response carries the formatted chat text |
| Route.Pipeline.ProcessExcel | backend/route.py:107-116 | only the spreadsheet slot changes (`None` stored as `[]`); a preprocessing exception leaves every slot alone |
| Route.Pipeline.EmbeddingVectorStoreFinalText | backend/route.py:120-191 | the response is `CommitOutcome`; the store is bound exactly on success; once the namespace resolves the chunk Documents are added, all of them on success and the batches written before a failed add otherwise; the client's calls and indexes change only when there is a chunk, and the index is recorded exactly when it resolves |
| Route.Pipeline.StoreChunks | backend/route.py:170-191 | the index error, the store error, or success with the store bound; the Documents are added, up to a failed batch, whenever the namespace resolves; the index is recorded exactly when it resolves |
| Route.Pipeline.Retrieval | backend/route.py:195-201 | refused until a store is bound; otherwise the chain's answer over that store with `k = 1` |
| Route.QueryBeforeCommit | backend/route.py:195-198 | a query is refused after any sequence of PDF, YouTube, WhatsApp and spreadsheet requests with no commit among them |

## Left out

- File I/O is not modelled. Saving uploads, creating `temp_files`, unzipping the archive and writing the formatted chat back to disk are left out. Their results enter as parameters: a directory listing, the lines read, the converter's page records.
- `pymupdf4llm.to_markdown` and the YouTube transcript service are not part of this model. Each is a parameter giving its result, or `None` for the exception the caller catches.
- `preprocessing_func` (pandas) is not part of this model. It is a `Result` parameter of `ProcessExcel`; its exception is not caught at route.py:114 and escapes the handler as `Raised`.
- The embedding model is not part of this model and has no parameter of its own. Its failure is folded into the add failure parameter, as the `get_embeddings` line below says.
- `chunk_text` is a parameter. The recursive character splitter and its sizes (1000 characters, overlap 200) are not modelled; only what its list or error dict adds to `chunked_texts` is.
- The LLM, `RetrievalQA` and the per-call `ConversationBufferMemory` are stood for by `invoke`. The answer is not modelled.
- `get_embeddings` (vector_store.py:16-25) catches its own exception and returns `None`. The `None` embedding then makes the store fail inside `vector_store`'s `try`. The model folds this into the add failure parameter, with no batch written.
- Index creation is not concurrent. Another process creating the index between listing and creating is represented only by an `ALREADY_EXISTS` failure.
- Logging and `print` are not modelled.
- The frontend, `backend/controller/rag.py` and `filter_complex_metadata` are not modelled. The metadata here holds only strings, which that filter keeps unchanged.
- The web framework's async execution and its error-to-HTTP mapping are not modelled. An uncaught exception is a `Raised` response.
- `repr` of strings escapes only backslash, quote, line feed, carriage return and tab. Other non-printable characters are kept as they are.
- `Route.Pipeline.EmbeddingVectorStoreWhatsapp`: the `TypeError` message text is simplified. Python's message names the offending item's index and type.
- The `AttributeError` message of `.strip()` on a non-string is simplified.
- `PineconeInit.PineconeClient.CreatePineconeIndex`: `name in pc.list_indexes()` is modelled as membership in the set of index names. Whether a name tests `in` the `IndexList` the client returns is a property of the client library. If it never does, `create_index` runs on every call and only its `ALREADY_EXISTS` error is tolerated. `ResolveTwice` and `CreatedOnlyIfAbsent` describe the call list only under the membership reading.
- CreateVectorStore: models vector_store.py:48 as LangChain's Pinecone store, the one route.py:11 imports. By its import at vector_store.py:5 it is the `pinecone` client class, which has no `add_documents`, so the call as written always ends in `None`. `CreateVectorStoreAsWritten` models that, and the main pipeline's members use the corrected store.
- CreatePineconeIndex: `pc.list_indexes()` and `pc.Index(...)` never fail in the model. A network or API error from either would leave `create_pinecone_index` as an exception. Only `create_index` has a failure parameter.
- ProvisionOutcome: for the same reason, it has no outcome for a failed listing or a failed `Index` call. In the source such an error becomes the commit's `Failed to initialize Pinecone index: ` response, or `None` from `vector_store()`.
- Retrieval: `invoke` always returns an answer. An error from the chain or the LLM would escape the handler uncaught, and that path is not modelled.
- WhatsappSlotText: the `page_content='...'` form relies on the `__str__` that langchain_core's `Document` defines. Its `repr` (`DocumentRepr`) is the pydantic field list `Document(metadata=..., page_content=...)`.
- The batch size of the Pinecone upsert is not modelled. A failed add says only how many leading documents were written before it.

## Findings

| source | as written | input that shows it | evidently intended | confidence | as-written member | corrected member |
|---|---|---|---|---|---|---|
| backend/main.py:91-97 | `retriver_data(vector)` is passed the dict `vector_store()` returns. The dict has no `as_retriever`, so the retriever is `None` and a `ValueError` is raised after every successful store | any truthy input, once vector_store.py:48 builds LangChain's store (row below); as written, every truthy input already raises at main.py:93 | pass `vector["retrieved_vector"]`, so the retriever is set with `k = 2` | not executed | RagMain.RagState.ProcessVectorStoreAsWritten | RagMain.RagState.ProcessVectorStore |
| backend/services/vector_store.py:5-50 | `Pinecone` is imported from `pinecone`, so line 48 builds a client rather than a vector store. The client has no `add_documents`, line 50 raises, and `vector_store()` returns `None` | any call whose index resolves | import `Pinecone` from `langchain_pinecone`, as route.py:11 does, so the documents are added and the store returned | not executed; rests on the `pinecone` client's interface | VectorStore.CreateVectorStoreAsWritten | VectorStore.CreateVectorStore |
| backend/route.py:97-102 | the slot holds the list of chat Documents, and `" ".join` of Documents raises `TypeError` | any archive with a readable `.txt` chat file | join the Documents' page contents and return the chat text | not executed | Route.Pipeline.EmbeddingVectorStoreWhatsapp | Route.Pipeline.EmbeddingVectorStoreWhatsappCorrected |
