/** The PDF extractor (backend/services/pdf_transcript.py): each page record of the Markdown
    conversion becomes a `{"text", "metadata"}` dict. */
module PdfTranscript {
  import opened PyValues
  import opened Outcomes

  /** `page.get("text", "")`. */
  function PageText(page: seq<(string, Value)>): Value {
    DictGet(page, "text", PyStr(""))
  }

  /** The dict built for one page: its text (empty when absent) and metadata holding the page
      number (`None` when absent) and the source tag `"pdf"`; `None` for the `AttributeError`
      of a page record that is not a dict. */
  function PageDict(page: Value): (r: Option<Value>)
    ensures r.Some? <==> page.PyDict?
  {
    match page
    case PyDict(entries) =>
      Some(PyDict([
        ("text", PageText(entries)),
        ("metadata", PyDict([("page_num", DictGet(entries, "page", PyNone)), ("source", PyStr("pdf"))]))]))
    case _ => None
  }

  /** What the dict of a page holds: the page's text (empty when absent), and metadata with
      the page number (`None` when absent) and the source `"pdf"`. */
  lemma PageDictFields(page: Value)
    requires page.PyDict?
    ensures var r := PageDict(page).value;
      r.PyDict? && DictGet(r.entries, "text", PyNone) == PageText(page.entries)
      && var metadata := DictGet(r.entries, "metadata", PyNone);
      metadata.PyDict?
      && DictGet(metadata.entries, "page_num", PyStr("")) == DictGet(page.entries, "page", PyNone)
      && DictGet(metadata.entries, "source", PyNone) == PyStr("pdf")
  {
    var r := PageDict(page).value;
    assert r.entries[0].0 == "text";
    assert r.entries[1].0 == "metadata" && r.entries[1].0 != "text";
  }

  /** Every page record is a dict. */
  predicate AllDicts(pages: seq<Value>) {
    forall i :: 0 <= i < |pages| ==> pages[i].PyDict?
  }

  /** `extract_pdf_transcript` (pdf_transcript.py:2-37). `converted` is what the Markdown
      converter returns as page records, `None` when it raises; any exception gives `None`. */
  method ExtractPdfTranscript(converted: Option<seq<Value>>) returns (r: Option<seq<Value>>)
    ensures converted.None? ==> r.None?
    ensures converted.Some? ==> (r.Some? <==> AllDicts(converted.value))
    ensures r.Some? ==> |r.value| == |converted.value|
    ensures r.Some? ==> forall i :: 0 <= i < |r.value| ==> PageDict(converted.value[i]) == Some(r.value[i])
  {
    if converted.None? {
      return None;
    }
    var mdTextImages := converted.value;
    var textMetadata: seq<Value> := [];
    var n := 0;
    while n < |mdTextImages|
      invariant 0 <= n <= |mdTextImages|
      invariant |textMetadata| == n
      invariant forall i :: 0 <= i < n ==> mdTextImages[i].PyDict?
      invariant forall i :: 0 <= i < n ==> PageDict(mdTextImages[i]) == Some(textMetadata[i])
    {
      var page := mdTextImages[n];
      if !page.PyDict? {
        // `page.get` raises AttributeError, caught around the whole body.
        assert !AllDicts(mdTextImages) by {
          assert !mdTextImages[n].PyDict?;
        }
        return None;
      }
      var pageDict := PyDict([
        ("text", DictGet(page.entries, "text", PyStr(""))),
        ("metadata", PyDict([("page_num", DictGet(page.entries, "page", PyNone)), ("source", PyStr("pdf"))]))]);
      assert PageDict(page) == Some(pageDict);
      textMetadata := textMetadata + [pageDict];
      n := n + 1;
    }
    r := Some(textMetadata);
  }
}
