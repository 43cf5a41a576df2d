/** The HTTP orchestrator of backend/route.py: four source slots (`extracted_data`) that the
    ingestion handlers overwrite, a commit step that turns the slots into chunked Documents and
    stores them in a Pinecone namespace, and a query handler that needs a committed store. */
module Route {
  import opened PyStrings
  import opened PyValues
  import opened Outcomes
  import opened PineconeInit
  import opened VectorStore
  import RagMain
  import WhatsApp
  import YouTube
  import PdfTranscript

  const PdfProcessedMessage := "PDF processed successfully"
  const YoutubeProcessedMessage := "YouTube transcript processed successfully"
  const NoWhatsappTextMessage := "No WhatsApp text available for processing."
  const WhatsappProcessedMessage := "WhatsApp text processed successfully"
  const ExcelProcessedMessage := "Excel processed successfully"
  const NoTextMessage := "No text available for processing. Upload a PDF or provide a YouTube URL."
  const EmptyFinalTextsMessage := "Final texts are empty, cannot proceed with vector storage."
  const IndexFailedPrefix := "Failed to initialize Pinecone index: "
  const StoreFailedPrefix := "Failed to create Pinecone vector store: "
  const CommittedMessage := "Embeddings, vector store, and final text processed successfully"
  const RetrieverMissingMessage := "Retriever is not initialized. Run '/embedding_vector_store_final_text' first."
  const RetrievalMessage := "Retrieval processed successfully"
  const UploadedSource := "uploaded_data"
  /** The number of documents the query handler's retriever returns. */
  const RetrievalK := 1
  /** `str.join` refusing a part that is not a string. */
  const JoinTypeErrorMessage := "sequence item: expected str instance"
  /** `.strip()` on a value that is not a string. */
  const StripAttributeErrorMessage := "object has no attribute 'strip'"

  /** The `extracted_data` dict: one slot per source. */
  datatype ExtractedData = ExtractedData(pdfText: Value, transcript: Value, whatsappText: Value, excelText: Value)

  /** `any([pdf_text, transcript, whatsapp_text, excel_text])`. */
  predicate AnySource(d: ExtractedData) {
    Truthy(d.pdfText) || Truthy(d.transcript) || Truthy(d.whatsappText) || Truthy(d.excelText)
  }

  /** The text `text_to_string` takes from one list item: the `"text"` entry of a dict
      (`""` when absent), `str(item)` for anything else. */
  function ItemText(item: Value): Value {
    if item.PyDict? then DictGet(item.entries, "text", PyStr("")) else PyStr(Str(item))
  }

  /** `text_to_string(text)` (route.py:144-147): a list becomes the space-join of its items'
      texts, which raises `TypeError` when one of them is not a string; anything else is
      returned as it is when truthy and as `""` when falsy. */
  function TextToString(text: Value): (r: Result<Value, Exception>)
    ensures text.PyList? ==>
      (r.Ok? <==> forall i :: 0 <= i < |text.items| ==> ItemText(text.items[i]).PyStr?)
    ensures text.PyList? && r.Ok? ==>
      r.value == PyStr(Join(" ", seq(|text.items|, i requires 0 <= i < |text.items| => ItemText(text.items[i]).s)))
    ensures text.PyList? && r.Err? ==> r.error.kind == TypeError
    ensures !text.PyList? ==> r.Ok? && (Truthy(text) ==> r.value == text) && (!Truthy(text) ==> r.value == PyStr(""))
  {
    if text.PyList? then
      var parts := seq(|text.items|, i requires 0 <= i < |text.items| => ItemText(text.items[i]));
      assert forall i :: 0 <= i < |text.items| ==> parts[i] == ItemText(text.items[i]);
      var joined := StrJoin(" ", parts);
      if joined.None? then Err(Exception(TypeError, JoinTypeErrorMessage))
      else
        assert seq(|parts|, i requires 0 <= i < |parts| => parts[i].s)
            == seq(|text.items|, i requires 0 <= i < |text.items| => ItemText(text.items[i]).s);
        Ok(PyStr(joined.value))
    else Ok(if Truthy(text) then text else PyStr(""))
  }

  /** The four converted slots in the order route.py:156 lists them; the spreadsheet slot is
      wrapped in a one-item list first (route.py:152). */
  function Converted(d: ExtractedData): (r: Result<seq<Value>, Exception>)
    ensures r.Ok? ==> |r.value| == 4
  {
    match TextToString(d.pdfText)
    case Err(e) => Err(e)
    case Ok(p) =>
      match TextToString(d.transcript)
      case Err(e) => Err(e)
      case Ok(t) =>
        match TextToString(d.whatsappText)
        case Err(e) => Err(e)
        case Ok(w) =>
          match TextToString(PyList([d.excelText]))
          case Err(e) => Err(e)
          case Ok(x) => Ok([p, t, w, x])
  }

  /** `[text.strip() for text in texts if text.strip()]` once every text is a string. */
  function NonBlank(texts: seq<string>): seq<string> {
    if texts == [] then [] else Kept(texts[0]) + NonBlank(texts[1..])
  }

  /** What one source contributes once stripped: nothing when it is blank. */
  function Kept(s: string): seq<string> {
    if Strip(s) == "" then [] else [Strip(s)]
  }

  predicate AllStr(texts: seq<Value>) {
    forall i :: 0 <= i < |texts| ==> texts[i].PyStr?
  }

  /** The strings held by values that are all strings. */
  function Strs(texts: seq<Value>): (r: seq<string>)
    requires AllStr(texts)
    ensures |r| == |texts| && forall i :: 0 <= i < |texts| ==> r[i] == texts[i].s
  {
    seq(|texts|, i requires 0 <= i < |texts| => texts[i].s)
  }

  /** The strings of four string values, in order. */
  lemma StrsFour(c: seq<Value>)
    requires |c| == 4 && AllStr(c)
    ensures Strs(c) == [c[0].s, c[1].s, c[2].s, c[3].s]
  {
  }

  /** The comprehension on the converted values: `.strip()` raises `AttributeError` on the
      first one that is not a string. */
  function KeepNonBlank(texts: seq<Value>): Result<seq<string>, Exception> {
    if AllStr(texts) then Ok(NonBlank(Strs(texts)))
    else Err(Exception(AttributeError, StripAttributeErrorMessage))
  }

  /** The stripped, non-blank texts the commit step chunks (route.py:149-157). */
  function CommitTexts(d: ExtractedData): (r: Result<seq<string>, Exception>)
    ensures r.Err? <==> Converted(d).Err? || !AllStr(Converted(d).value)
    ensures r.Err? && Converted(d).Ok? ==> r.error == Exception(AttributeError, StripAttributeErrorMessage)
  {
    match Converted(d)
    case Err(e) => Err(e)
    case Ok(texts) => KeepNonBlank(texts)
  }

  lemma {:induction false} NonBlankAppend(a: seq<string>, b: seq<string>)
    ensures NonBlank(a + b) == NonBlank(a) + NonBlank(b)
  {
    if a == [] {
      assert a + b == b;
    } else {
      assert (a + b)[1..] == a[1..] + b;
      NonBlankAppend(a[1..], b);
    }
  }

  lemma NonBlankOne(a: string)
    ensures NonBlank([a]) == Kept(a)
  {
    assert [a][1..] == [];
  }

  lemma NonBlankFour(a: string, b: string, c: string, e: string)
    ensures NonBlank([a, b, c, e]) == Kept(a) + Kept(b) + Kept(c) + Kept(e)
  {
    assert [a, b, c, e] == [a] + [b] + [c] + [e];
    NonBlankAppend([a] + [b] + [c], [e]);
    NonBlankAppend([a] + [b], [c]);
    NonBlankAppend([a], [b]);
    NonBlankOne(a);
    NonBlankOne(b);
    NonBlankOne(c);
    NonBlankOne(e);
  }

  /** The conversions of route.py:149-152, in order. */
  lemma ConvertedParts(d: ExtractedData)
    requires Converted(d).Ok?
    ensures TextToString(d.pdfText).Ok? && TextToString(d.transcript).Ok? && TextToString(d.whatsappText).Ok?
    ensures TextToString(PyList([d.excelText])).Ok?
    ensures Converted(d).value == [TextToString(d.pdfText).value, TextToString(d.transcript).value,
                                   TextToString(d.whatsappText).value, TextToString(PyList([d.excelText])).value]
  {
  }

  /** The committed texts are the four sources, stripped, blank ones dropped, in the order
      PDF, transcript, WhatsApp, spreadsheet. */
  lemma CommitOrder(d: ExtractedData)
    requires CommitTexts(d).Ok?
    ensures Converted(d).Ok?
    ensures var c := Converted(d).value;
      c[0].PyStr? && c[1].PyStr? && c[2].PyStr? && c[3].PyStr?
      && CommitTexts(d).value == Kept(c[0].s) + Kept(c[1].s) + Kept(c[2].s) + Kept(c[3].s)
  {
    assert Converted(d).Ok?;
    var c := Converted(d).value;
    assert CommitTexts(d) == KeepNonBlank(c);
    KeepNonBlankFour(c);
    NonBlankFour(c[0].s, c[1].s, c[2].s, c[3].s);
  }

  /** The comprehension over four converted values, once all of them are strings. */
  lemma KeepNonBlankFour(c: seq<Value>)
    requires |c| == 4 && KeepNonBlank(c).Ok?
    ensures c[0].PyStr? && c[1].PyStr? && c[2].PyStr? && c[3].PyStr?
    ensures KeepNonBlank(c).value == NonBlank([c[0].s, c[1].s, c[2].s, c[3].s])
  {
    assert AllStr(c);
    assert c[0].PyStr? && c[1].PyStr? && c[2].PyStr? && c[3].PyStr?;
    StrsFour(c);
  }

  /** The spreadsheet slot is converted through `str()` of the slot itself: text_to_string
      wraps it in a list, so it never reaches the "falsy gives empty" rule. */
  lemma ExcelSlotText(excel: Value)
    requires !excel.PyDict?
    ensures TextToString(PyList([excel])) == Ok(PyStr(Str(excel)))
  {
    var parts := seq(1, i requires 0 <= i < 1 => ItemText([excel][i]).s);
    assert parts == [Str(excel)];
  }

  /** An empty or never-filled spreadsheet slot still reaches the chunker: as the text `None`,
      or as the list's `repr` (`[]` when no rows were read). */
  lemma ExcelSlotNeverBlank(excel: Value)
    requires excel.PyNone? || excel.PyList?
    ensures Kept(Str(excel)) == [Str(excel)]
  {
    var s := Str(excel);
    if excel.PyNone? {
      assert s == "None";
    } else {
      assert s[0] == '[' && s[|s| - 1] == ']';
    }
    StripUnchanged(s);
  }

  /** Whenever the commit gets its texts, the last one is the spreadsheet slot's `repr`,
      uploaded or not. */
  lemma ExcelAlwaysCommitted(d: ExtractedData)
    requires d.excelText.PyNone? || d.excelText.PyList?
    requires CommitTexts(d).Ok?
    ensures var texts := CommitTexts(d).value; texts != [] && texts[|texts| - 1] == Str(d.excelText)
  {
    ExcelConverted(d);
    ExcelSlotNeverBlank(d.excelText);
    LastCommitted(d, Str(d.excelText));
  }

  /** A fourth source that is never blank is committed last. */
  lemma LastCommitted(d: ExtractedData, e: string)
    requires CommitTexts(d).Ok?
    requires Converted(d).Ok? && Converted(d).value[3] == PyStr(e) && Kept(e) == [e]
    ensures var texts := CommitTexts(d).value; texts != [] && texts[|texts| - 1] == e
  {
    CommitOrder(d);
    var c := Converted(d).value;
    var texts := CommitTexts(d).value;
    assert texts == (Kept(c[0].s) + Kept(c[1].s) + Kept(c[2].s)) + [e];
  }

  /** The fourth converted value is the spreadsheet slot's `str()`. */
  lemma ExcelConverted(d: ExtractedData)
    requires d.excelText.PyNone? || d.excelText.PyList?
    requires Converted(d).Ok?
    ensures Converted(d).value[3] == PyStr(Str(d.excelText))
  {
    ConvertedParts(d);
    ExcelSlotText(d.excelText);
  }

  /** A PDF slot as the PDF handler leaves it converts to the space-join of the page texts,
      in page order. */
  lemma PdfSlotText(pages: seq<Value>, dicts: seq<Value>)
    requires |dicts| == |pages| && PdfTranscript.AllDicts(pages)
    requires forall i :: 0 <= i < |pages| ==> PdfTranscript.PageDict(pages[i]) == Some(dicts[i])
    requires forall i :: 0 <= i < |pages| ==> PdfTranscript.PageText(pages[i].entries).PyStr?
    ensures TextToString(PyList(dicts))
      == Ok(PyStr(Join(" ", seq(|pages|, i requires 0 <= i < |pages| => PdfTranscript.PageText(pages[i].entries).s))))
  {
    forall i | 0 <= i < |pages|
      ensures ItemText(dicts[i]) == PdfTranscript.PageText(pages[i].entries)
    {
      assert pages[i].PyDict?;
    }
    assert seq(|dicts|, i requires 0 <= i < |dicts| => ItemText(dicts[i]).s)
        == seq(|pages|, i requires 0 <= i < |pages| => PdfTranscript.PageText(pages[i].entries).s);
  }

  /** A WhatsApp slot holding the chat Document converts to that Document's `str()`, which
      wraps the chat in `page_content='...'`. */
  lemma WhatsappSlotText(chat: string)
    ensures TextToString(PyList([PyDoc(Document(chat, []))])) == Ok(PyStr("page_content='" + chat + "'"))
  {
    ExcelSlotText(PyDoc(Document(chat, [])));
    var text := "page_content='" + chat + "'";
    assert Str(PyDoc(Document(chat, []))) == text + "";
    assert text + "" == text;
  }

  /** What the chunker gives for one text: its chunks, or the error dict of a failure. */
  datatype ChunkOutcome = Chunks(chunks: seq<string>) | ChunkFailed(message: string)

  /** What `chunked_texts.extend(chunks)` adds: the chunks, or the error dict's only key. */
  function ChunkPieces(o: ChunkOutcome): seq<string> {
    match o
    case Chunks(c) => c
    case ChunkFailed(_) => ["error"]
  }

  /** `chunked_texts` after chunking each text in turn. */
  function ChunkAll(texts: seq<string>, chunkText: string -> ChunkOutcome): seq<string> {
    if texts == [] then []
    else ChunkAll(texts[..|texts| - 1], chunkText) + ChunkPieces(chunkText(texts[|texts| - 1]))
  }

  /** The last text's pieces come last. */
  lemma ChunkAllLast(texts: seq<string>, chunkText: string -> ChunkOutcome)
    requires texts != []
    ensures ChunkAll(texts, chunkText)
      == ChunkAll(texts[..|texts| - 1], chunkText) + ChunkPieces(chunkText(texts[|texts| - 1]))
  {
  }

  /** Chunking keeps the order of the texts: the chunks of a concatenation are the
      concatenation of the chunks. */
  lemma {:induction false} ChunkAllAppend(a: seq<string>, b: seq<string>, chunkText: string -> ChunkOutcome)
    ensures ChunkAll(a + b, chunkText) == ChunkAll(a, chunkText) + ChunkAll(b, chunkText)
    decreases |b|
  {
    if b == [] {
      assert a + b == a;
    } else {
      var b', last := b[..|b| - 1], b[|b| - 1];
      assert (a + b)[..|a + b| - 1] == a + b' && (a + b)[|a + b| - 1] == last;
      ChunkAllLast(a + b, chunkText);
      ChunkAllLast(b, chunkText);
      ChunkAllAppend(a, b', chunkText);
    }
  }

  /** Every piece the chunker produced for a text is committed; for a failed chunker that
      piece is the error dict's key `error`. */
  lemma {:induction false} ChunkPiecesKept(texts: seq<string>, chunkText: string -> ChunkOutcome, i: nat)
    requires i < |texts|
    ensures forall c :: c in ChunkPieces(chunkText(texts[i])) ==> c in ChunkAll(texts, chunkText)
  {
    var init := texts[..|texts| - 1];
    ChunkAllLast(texts, chunkText);
    if i < |init| {
      ChunkPiecesKept(init, chunkText, i);
      assert init[i] == texts[i];
    }
  }

  /** Every committed chunk is a piece the chunker produced for one of the texts. */
  lemma {:induction false} ChunksComeFromTexts(texts: seq<string>, chunkText: string -> ChunkOutcome)
    ensures forall c :: c in ChunkAll(texts, chunkText) ==>
      exists i :: 0 <= i < |texts| && c in ChunkPieces(chunkText(texts[i]))
  {
    if texts != [] {
      var init := texts[..|texts| - 1];
      ChunksComeFromTexts(init, chunkText);
      forall c | c in ChunkAll(texts, chunkText)
        ensures exists i :: 0 <= i < |texts| && c in ChunkPieces(chunkText(texts[i]))
      {
        if c in ChunkAll(init, chunkText) {
          var i :| 0 <= i < |init| && c in ChunkPieces(chunkText(init[i]));
          assert texts[i] == init[i];
        } else {
          assert c in ChunkPieces(chunkText(texts[|texts| - 1]));
        }
      }
    }
  }

  /** The chunking loop of route.py:159-163: each text's chunks are appended in turn, a failed
      chunker adding the key of its error dict. */
  method ChunkTexts(texts: seq<string>, chunkText: string -> ChunkOutcome) returns (chunkedTexts: seq<string>)
    ensures chunkedTexts == ChunkAll(texts, chunkText)
  {
    chunkedTexts := [];
    var i := 0;
    while i < |texts|
      invariant 0 <= i <= |texts|
      invariant chunkedTexts == ChunkAll(texts[..i], chunkText)
    {
      var chunks := chunkText(texts[i]);
      match chunks {
        case Chunks(c) =>
          if c != [] {
            chunkedTexts := chunkedTexts + c;
          }
        case ChunkFailed(_) =>
          // The error dict is truthy, and extending a list by a dict adds its keys.
          chunkedTexts := chunkedTexts + ["error"];
      }
      assert texts[..i + 1][..i] == texts[..i];
      i := i + 1;
    }
    assert texts[..i] == texts;
  }

  /** The Documents the commit stores: one per chunk, each tagged as uploaded data. */
  function UploadedDocuments(chunks: seq<string>): (r: seq<Document>)
    ensures |r| == |chunks|
  {
    seq(|chunks|, i requires 0 <= i < |chunks| => Document(chunks[i], [("source", UploadedSource)]))
  }

  /** Document `i` wraps chunk `i`, so every stored Document carries one chunk and the
      metadata `{"source": "uploaded_data"}`. */
  lemma UploadedDocumentsTagged(chunks: seq<string>)
    ensures forall i :: 0 <= i < |chunks| ==> UploadedDocuments(chunks)[i] == Document(chunks[i], [("source", UploadedSource)])
    ensures forall d :: d in UploadedDocuments(chunks) ==> d.metadata == [("source", UploadedSource)] && d.pageContent in chunks
  {
    var docs := UploadedDocuments(chunks);
    forall d | d in docs
      ensures d.metadata == [("source", UploadedSource)] && d.pageContent in chunks
    {
      var i :| 0 <= i < |docs| && docs[i] == d;
      assert d.pageContent == chunks[i];
    }
  }

  /** The texts of a list of Documents, in order. */
  function PageContents(docs: seq<Document>): seq<string> {
    if docs == [] then [] else [docs[0].pageContent] + PageContents(docs[1..])
  }

  /** Reading the stored Documents' texts back gives the chunks, in order. */
  lemma {:induction false} UploadedContents(chunks: seq<string>)
    ensures PageContents(UploadedDocuments(chunks)) == chunks
  {
    if chunks != [] {
      assert UploadedDocuments(chunks)[1..] == UploadedDocuments(chunks[1..]);
      UploadedContents(chunks[1..]);
      assert chunks == [chunks[0]] + chunks[1..];
    }
  }

  /** The chunks a commit of `d` stores, when its texts convert. */
  function CommittedChunks(d: ExtractedData, chunkText: string -> ChunkOutcome): seq<string> {
    match CommitTexts(d)
    case Err(_) => []
    case Ok(texts) => ChunkAll(texts, chunkText)
  }

  /** The commit gets as far as resolving the Pinecone index. */
  predicate ReachesIndex(d: ExtractedData, chunkText: string -> ChunkOutcome) {
    AnySource(d) && CommitTexts(d).Ok? && CommittedChunks(d, chunkText) != []
  }

  /** The response of the storing half of the commit (route.py:174-191), given how the index
      resolution ended and the failure adding the documents, if any. */
  function StoreOutcome(resolved: Result<IndexInfo, Exception>, storeFailure: Option<AddFailure>): Response {
    match resolved
    case Err(e) => Error(IndexFailedPrefix + e.message)
    case Ok(_) => if storeFailure.Some? then Error(StoreFailedPrefix + storeFailure.value.message) else Message(CommittedMessage)
  }

  /** The response of `embedding_vector_store_final_text` (route.py:120-191) for the slots `d`,
      the chunker, the request's user id and mode, whether the index is listed, what
      `create_index` does if called, and the error the embedding or upsert raises. */
  function CommitOutcome(d: ExtractedData, chunkText: string -> ChunkOutcome, userId: Option<string>, isPrivate: bool,
                         listed: bool, createResult: Option<CreateFailure>, storeFailure: Option<AddFailure>)
    : (r: Response)
    ensures !AnySource(d) ==> r == Error(NoTextMessage)
    ensures r.Message? ==> r == Message(CommittedMessage) && ReachesIndex(d, chunkText) && storeFailure.None?
  {
    if !AnySource(d) then Error(NoTextMessage)
    else
      match CommitTexts(d)
      case Err(e) => Raised(e)
      case Ok(texts) =>
        if ChunkAll(texts, chunkText) == [] then Error(EmptyFinalTextsMessage)
        else StoreOutcome(ProvisionOutcome(userId, isPrivate, listed, createResult), storeFailure)
  }

  /** The steps of a commit, one early exit at a time. */
  lemma CommitSteps(d: ExtractedData, chunkText: string -> ChunkOutcome, userId: Option<string>, isPrivate: bool,
                    listed: bool, createResult: Option<CreateFailure>, storeFailure: Option<AddFailure>)
    ensures var r := CommitOutcome(d, chunkText, userId, isPrivate, listed, createResult, storeFailure);
      && (!AnySource(d) ==> r == Error(NoTextMessage) && !ReachesIndex(d, chunkText))
      && (AnySource(d) && CommitTexts(d).Err? ==> r == Raised(CommitTexts(d).error) && !ReachesIndex(d, chunkText))
      && (AnySource(d) && CommitTexts(d).Ok? ==> CommittedChunks(d, chunkText) == ChunkAll(CommitTexts(d).value, chunkText))
      && (AnySource(d) && CommitTexts(d).Ok? && CommittedChunks(d, chunkText) == [] ==>
            r == Error(EmptyFinalTextsMessage) && !ReachesIndex(d, chunkText))
      && (ReachesIndex(d, chunkText) ==> r == StoreOutcome(ProvisionOutcome(userId, isPrivate, listed, createResult), storeFailure))
  {
  }

  /** A commit succeeds exactly when some slot is filled, the texts convert and give at least
      one chunk, the namespace resolves and the documents are stored. */
  lemma CommitSucceedsExactly(d: ExtractedData, chunkText: string -> ChunkOutcome, userId: Option<string>, isPrivate: bool,
                              listed: bool, createResult: Option<CreateFailure>, storeFailure: Option<AddFailure>)
    ensures CommitOutcome(d, chunkText, userId, isPrivate, listed, createResult, storeFailure).Message? <==>
      ReachesIndex(d, chunkText) && ProvisionOutcome(userId, isPrivate, listed, createResult).Ok? && storeFailure.None?
    ensures CommitOutcome(d, chunkText, userId, isPrivate, listed, createResult, storeFailure).Message? ==>
      CommitOutcome(d, chunkText, userId, isPrivate, listed, createResult, storeFailure) == Message(CommittedMessage)
  {
  }

  /** A private commit without a user id fails with the resolver's message once it has chunks. */
  lemma PrivateCommitNeedsUserId(d: ExtractedData, chunkText: string -> ChunkOutcome, userId: Option<string>,
                                 listed: bool, createResult: Option<CreateFailure>, storeFailure: Option<AddFailure>)
    requires MissingUserId(userId) && ReachesIndex(d, chunkText)
    ensures CommitOutcome(d, chunkText, userId, true, listed, createResult, storeFailure)
      == Error(IndexFailedPrefix + MissingUserIdMessage)
  {
    MissingUserIdTouchesNothing(userId, listed, createResult);
  }

  /** What `embedding_vector_store_whatsapp` stores in the WhatsApp slot: the extracted
      Document list, or `[]` when no chat file was found or read. */
  function WhatsappSlot(listing: seq<string>, readLines: string -> Option<seq<string>>): Value {
    var files := WhatsApp.TextFiles(listing);
    if files == [] || readLines(files[0]).None? then PyList([])
    else PyList([PyDoc(Document(WhatsApp.ChatDocumentText(readLines(files[0]).value), []))])
  }

  /** The orchestrator's module-level state: the slots, the committed store (`retrieved_vector`),
      the Pinecone client, and the chunker (`chunk_text`) it calls. */
  class Pipeline {
    var extractedData: ExtractedData
    var retrievedVector: Option<Store>
    const pc: PineconeClient

    /** Start-up: every slot `None`, no store (route.py:58-59). */
    constructor (pc: PineconeClient)
      ensures extractedData == ExtractedData(PyNone, PyNone, PyNone, PyNone)
      ensures retrievedVector == None && this.pc == pc
    {
      extractedData := ExtractedData(PyNone, PyNone, PyNone, PyNone);
      retrievedVector := None;
      this.pc := pc;
    }

    /** `preprocess_pdf` (route.py:64-73): `converted` is the Markdown converter's page records
        for the uploaded file. Only the PDF slot changes. */
    method PreprocessPdf(converted: Option<seq<Value>>) returns (r: Response)
      modifies this
      ensures extractedData == old(extractedData).(pdfText := extractedData.pdfText)
      ensures retrievedVector == old(retrievedVector)
      ensures extractedData.pdfText.PyNone? || extractedData.pdfText.PyList?
      ensures extractedData.pdfText.PyList? <==> converted.Some? && PdfTranscript.AllDicts(converted.value)
      ensures extractedData.pdfText.PyList? ==>
        |extractedData.pdfText.items| == |converted.value|
        && forall i :: 0 <= i < |converted.value| ==>
          PdfTranscript.PageDict(converted.value[i]) == Some(extractedData.pdfText.items[i])
      ensures r == MessageWith(PdfProcessedMessage, "text", extractedData.pdfText)
    {
      var pdfText := PdfTranscript.ExtractPdfTranscript(converted);
      var slot := if pdfText.Some? then PyList(pdfText.value) else PyNone;
      extractedData := extractedData.(pdfText := slot);
      r := MessageWith(PdfProcessedMessage, "text", slot);
    }

    /** `process_youtube` (route.py:79-83): `fetch` is the transcript service. Only the
        transcript slot changes. */
    method ProcessYoutube(url: string, fetch: string -> Option<seq<YouTube.Segment>>) returns (r: Response)
      modifies this
      ensures extractedData == old(extractedData).(transcript :=
        match YouTube.Transcript(url, fetch) case None => PyNone case Some(t) => PyStr(t))
      ensures retrievedVector == old(retrievedVector)
      ensures r == MessageWith(YoutubeProcessedMessage, "text", extractedData.transcript)
    {
      var transcript := YouTube.ExtractTranscript(url, fetch);
      var slot := if transcript.Some? then PyStr(transcript.value) else PyNone;
      extractedData := extractedData.(transcript := slot);
      r := MessageWith(YoutubeProcessedMessage, "text", slot);
    }

    /** The first half of `embedding_vector_store_whatsapp` (route.py:96-97): the chat is
        extracted and the WhatsApp slot set to its Document list, or to `[]` when there is
        none. `chat` is the extracted Document's text. */
    method StoreChat(listing: seq<string>, readLines: string -> Option<seq<string>>)
      returns (chat: Option<string>)
      modifies this`extractedData
      ensures extractedData == old(extractedData).(whatsappText := WhatsappSlot(listing, readLines))
      ensures chat.Some? <==> WhatsappSlot(listing, readLines) != PyList([])
      ensures chat.Some? ==> chat.value == WhatsApp.ChatDocumentText(readLines(WhatsApp.TextFiles(listing)[0]).value)
    {
      var whatsappText := WhatsApp.ExtractWhatsappChat(listing, readLines);
      if whatsappText.None? {
        extractedData := extractedData.(whatsappText := PyList([]));
        return None;
      }
      var doc := whatsappText.value[0];
      extractedData := extractedData.(whatsappText := PyList([PyDoc(doc)]));
      chat := Some(doc.pageContent);
    }

    /** `embedding_vector_store_whatsapp` (route.py:89-103): `listing` is the unpacked archive,
        `readLines` reads a chat file. The slot holds the chat Document, or `[]` when there is
        none; then the handler reports the missing text, or fails joining a list of Documents
        with `" ".join`. Only the WhatsApp slot changes. */
    method EmbeddingVectorStoreWhatsapp(listing: seq<string>, readLines: string -> Option<seq<string>>)
      returns (r: Response)
      modifies this
      ensures extractedData == old(extractedData).(whatsappText := WhatsappSlot(listing, readLines))
      ensures retrievedVector == old(retrievedVector)
      ensures extractedData.whatsappText == PyList([]) ==> r == Error(NoWhatsappTextMessage)
      ensures extractedData.whatsappText != PyList([]) ==> r == Raised(Exception(TypeError, JoinTypeErrorMessage))
    {
      var chat := StoreChat(listing, readLines);
      if chat.None? {
        return Error(NoWhatsappTextMessage);
      }
      match StrJoin(" ", extractedData.whatsappText.items)
      case None =>
        r := Raised(Exception(TypeError, JoinTypeErrorMessage));
      case Some(joined) =>
        r := MessageWith(WhatsappProcessedMessage, "text", PyStr(joined));
    }

    /** `embedding_vector_store_whatsapp` joining the page contents of the chat Documents
        rather than the Documents themselves: a chat that was read is reported with its
        formatted text. */
    method EmbeddingVectorStoreWhatsappCorrected(listing: seq<string>, readLines: string -> Option<seq<string>>)
      returns (r: Response)
      modifies this
      ensures extractedData == old(extractedData).(whatsappText := WhatsappSlot(listing, readLines))
      ensures retrievedVector == old(retrievedVector)
      ensures extractedData.whatsappText == PyList([]) ==> r == Error(NoWhatsappTextMessage)
      ensures extractedData.whatsappText != PyList([]) ==>
        r == MessageWith(WhatsappProcessedMessage, "text",
                         PyStr(WhatsApp.ChatDocumentText(readLines(WhatsApp.TextFiles(listing)[0]).value)))
    {
      var chat := StoreChat(listing, readLines);
      if chat.None? {
        return Error(NoWhatsappTextMessage);
      }
      var docs := extractedData.whatsappText.items;
      var contents := seq(|docs|, i requires 0 <= i < |docs| => PyStr(docs[i].doc.pageContent));
      assert contents == [PyStr(chat.value)];
      assert seq(|contents|, i requires 0 <= i < |contents| => contents[i].s) == [chat.value];
      var joined := StrJoin(" ", contents);
      r := MessageWith(WhatsappProcessedMessage, "text", PyStr(joined.value));
    }

    /** `process_excel` (route.py:107-116): `excel` is what the spreadsheet preprocessing gives
        for the upload, or the exception it raises, which leaves every slot as it was. Only
        the spreadsheet slot changes; `None` is stored as `[]`. */
    method ProcessExcel(excel: Result<Value, Exception>) returns (r: Response)
      modifies this
      ensures excel.Err? ==> extractedData == old(extractedData) && r == Raised(excel.error)
      ensures excel.Ok? ==> extractedData == old(extractedData).(excelText :=
        if excel.value.PyNone? then PyList([]) else excel.value)
      ensures excel.Ok? ==> r == MessageWith(ExcelProcessedMessage, "text", excel.value)
      ensures retrievedVector == old(retrievedVector)
    {
      if excel.Err? {
        return Raised(excel.error);
      }
      var excelText := excel.value;
      extractedData := extractedData.(excelText := if excelText.PyNone? then PyList([]) else excelText);
      r := MessageWith(ExcelProcessedMessage, "text", excelText);
    }

    /** `embedding_vector_store_final_text(user_id, is_private)` (route.py:120-191). The store is
        bound only when the index resolves and the documents are added; nothing is resolved
        or stored unless the slots give at least one chunk. */
    method EmbeddingVectorStoreFinalText(userId: Option<string>, isPrivate: bool, chunkText: string -> ChunkOutcome,
                                         createResult: Option<CreateFailure>, storeFailure: Option<AddFailure>)
      returns (r: Response)
      modifies this`retrievedVector, pc
      ensures r == CommitOutcome(extractedData, chunkText, userId, isPrivate, IndexName in old(pc.indexes),
                                 createResult, storeFailure)
      ensures retrievedVector == if r.Message? then Some(Store(IndexName, Namespace(userId, isPrivate))) else old(retrievedVector)
      ensures r.Message? ==> pc.records == old(pc.records)[(IndexName, Namespace(userId, isPrivate)) :=
        old(pc.Stored(IndexName, Namespace(userId, isPrivate))) + UploadedDocuments(CommittedChunks(extractedData, chunkText))]
      ensures (ReachesIndex(extractedData, chunkText)
               && ProvisionOutcome(userId, isPrivate, IndexName in old(pc.indexes), createResult).Ok?) ==>
        pc.records == old(pc.records)[(IndexName, Namespace(userId, isPrivate)) :=
          old(pc.Stored(IndexName, Namespace(userId, isPrivate)))
          + Written(UploadedDocuments(CommittedChunks(extractedData, chunkText)), storeFailure)]
      ensures !(ReachesIndex(extractedData, chunkText)
                && ProvisionOutcome(userId, isPrivate, IndexName in old(pc.indexes), createResult).Ok?) ==>
        pc.records == old(pc.records)
      ensures pc.calls == old(pc.calls) +
        if ReachesIndex(extractedData, chunkText) then ProvisionCalls(userId, isPrivate, IndexName in old(pc.indexes), createResult) else []
      ensures pc.indexes ==
        if ReachesIndex(extractedData, chunkText) && ProvisionOutcome(userId, isPrivate, IndexName in old(pc.indexes), createResult).Ok?
        then old(pc.indexes) + {IndexName} else old(pc.indexes)
    {
      var d := extractedData;
      CommitSteps(d, chunkText, userId, isPrivate, IndexName in pc.indexes, createResult, storeFailure);
      if !AnySource(d) {
        return Error(NoTextMessage);
      }
      var texts := CommitTexts(d);
      if texts.Err? {
        return Raised(texts.error);
      }
      var finalTexts := texts.value;
      var chunkedTexts := ChunkTexts(finalTexts, chunkText);
      if chunkedTexts == [] {
        return Error(EmptyFinalTextsMessage);
      }
      r := StoreChunks(chunkedTexts, userId, isPrivate, createResult, storeFailure);
    }

    /** The storing half of the commit (route.py:171-191): the chunks become Documents tagged
        as uploaded data, the index is resolved and the Documents are added to the namespace;
        the store is bound only when both succeed, and a failed add keeps the batches it wrote. */
    method StoreChunks(chunks: seq<string>, userId: Option<string>, isPrivate: bool,
                       createResult: Option<CreateFailure>, storeFailure: Option<AddFailure>)
      returns (r: Response)
      modifies this`retrievedVector, pc
      ensures r == StoreOutcome(ProvisionOutcome(userId, isPrivate, IndexName in old(pc.indexes), createResult), storeFailure)
      ensures retrievedVector == if r.Message? then Some(Store(IndexName, Namespace(userId, isPrivate))) else old(retrievedVector)
      ensures r.Message? ==> pc.records == old(pc.records)[(IndexName, Namespace(userId, isPrivate)) :=
        old(pc.Stored(IndexName, Namespace(userId, isPrivate))) + UploadedDocuments(chunks)]
      ensures ProvisionOutcome(userId, isPrivate, IndexName in old(pc.indexes), createResult).Ok? ==>
        pc.records == old(pc.records)[(IndexName, Namespace(userId, isPrivate)) :=
          old(pc.Stored(IndexName, Namespace(userId, isPrivate))) + Written(UploadedDocuments(chunks), storeFailure)]
      ensures ProvisionOutcome(userId, isPrivate, IndexName in old(pc.indexes), createResult).Err? ==>
        pc.records == old(pc.records)
      ensures pc.calls == old(pc.calls) + ProvisionCalls(userId, isPrivate, IndexName in old(pc.indexes), createResult)
      ensures pc.indexes == if ProvisionOutcome(userId, isPrivate, IndexName in old(pc.indexes), createResult).Ok?
                            then old(pc.indexes) + {IndexName} else old(pc.indexes)
    {
      var documents := UploadedDocuments(chunks);
      var pineconeInfo := pc.CreatePineconeIndex(userId, isPrivate, createResult);
      if pineconeInfo.Err? {
        return Error(IndexFailedPrefix + pineconeInfo.error.message);
      }
      var error := pc.AddDocuments(pineconeInfo.value.index, pineconeInfo.value.namespace, documents, storeFailure);
      if error.Some? {
        return Error(StoreFailedPrefix + error.value);
      }
      retrievedVector := Some(Store(pineconeInfo.value.index, pineconeInfo.value.namespace));
      r := Message(CommittedMessage);
    }

    /** `retrieval(query)` (route.py:195-201): refused until a commit bound a store; otherwise
        the chain answers over that store with `k = 1`. `invoke` stands for the chain. */
    method Retrieval(query: string, invoke: (Retriever, string) -> Value) returns (r: Response)
      ensures retrievedVector.None? ==> r == Error(RetrieverMissingMessage)
      ensures retrievedVector.Some? ==>
        r == MessageWith(RetrievalMessage, "retriever", invoke(Retriever(retrievedVector.value, RetrievalK), query))
    {
      if retrievedVector.None? {
        return Error(RetrieverMissingMessage);
      }
      var retriever := Retriever(retrievedVector.value, RetrievalK);
      var result := RagMain.RetrievalChain(query, Some(retriever), invoke);
      r := MessageWith(RetrievalMessage, "retriever", result.value);
    }
  }

  /** One ingestion request to the orchestrator, with what its external services give. */
  datatype Ingestion =
    | PdfUpload(converted: Option<seq<Value>>)
    | YoutubeLink(url: string, fetch: string -> Option<seq<YouTube.Segment>>)
    | WhatsappArchive(listing: seq<string>, readLines: string -> Option<seq<string>>)
    | ExcelUpload(excel: Result<Value, Exception>)

  /** A query sent before any commit is refused, whatever ingestion requests came first. */
  method QueryBeforeCommit(pc: PineconeClient, requests: seq<Ingestion>, query: string,
                           invoke: (Retriever, string) -> Value)
    returns (r: Response)
    ensures r == Error(RetrieverMissingMessage)
  {
    var p := new Pipeline(pc);
    for i := 0 to |requests|
      invariant p.retrievedVector == None
    {
      match requests[i] {
        case PdfUpload(converted) =>
          r := p.PreprocessPdf(converted);
        case YoutubeLink(url, fetch) =>
          r := p.ProcessYoutube(url, fetch);
        case WhatsappArchive(listing, readLines) =>
          r := p.EmbeddingVectorStoreWhatsapp(listing, readLines);
        case ExcelUpload(excel) =>
          r := p.ProcessExcel(excel);
      }
    }
    r := p.Retrieval(query, invoke);
  }
}
