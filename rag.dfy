/**
 * The answer assembly around retrieval: loading the non-blank pages of a PDF,
 * the guard that refuses a PDF without text before the engine's state is
 * replaced, joining retrieved pages into a context, building one citation per
 * retrieved document, and the fallback answers.
 *
 * The foreign services are parameters: the text PyMuPDF extracts per page
 * (and the page at which it raises, if any), the text splitter, the outcome
 * of connecting to Ollama, the vector-store search and the prompt chain.
 */
module Rag {
  import opened Wrappers
  import opened Strings

  const PageSeparator: string := "\n\n"
  const SnippetKept: nat := 150
  const FallbackContextKept: nat := 1500
  const RetrieverK: nat := 3
  const NoKnowledgeBaseAnswer: string := "Please upload a PDF first to initialize the knowledge base."
  const FallbackIntro: string := "Based on the document, here's the relevant content:\n\n"
  const EmptyPdfError: string := "Could not extract text from PDF. The file may be empty or corrupted."

  /** A LangChain document: page text with its `page` and `source` metadata. */
  datatype Document = Document(pageContent: string, page: Option<nat>, source: string)

  /** The retriever built over a vector store: the indexed chunks and how many results a search returns. */
  datatype Retriever = Retriever(store: seq<Document>, k: nat)

  function PageContents(docs: seq<Document>): seq<string> {
    seq(|docs|, i requires 0 <= i < |docs| => docs[i].pageContent)
  }

  /** `format_docs`: the page contents joined with a blank line between consecutive ones. */
  function FormatDocs(docs: seq<Document>): (r: string)
    ensures docs == [] ==> r == ""
    ensures docs != [] ==>
      |r| == TotalLength(PageContents(docs)) + (|docs| - 1) * |PageSeparator|
  {
    JoinLength(PageContents(docs), PageSeparator);
    Join(PageContents(docs), PageSeparator)
  }

  // ---------------------------------------------------------------------
  // Loading a PDF

  /** The documents kept from the given page texts: the non-blank pages, numbered from 0. */
  function KeptPages(path: string, texts: seq<string>): (r: seq<Document>)
    ensures |r| <= |texts|
    decreases |texts|
  {
    if texts == [] then []
    else
      var last := |texts| - 1;
      KeptPages(path, texts[..last])
        + (if Strip(texts[last]) != "" then [Document(texts[last], Some(last), path)] else [])
  }

  /**
   * The kept documents are exactly the pages that are not all whitespace, each
   * with its text, its 0-based page number and the file path, in page order.
   */
  lemma {:induction false} KeptPagesExactly(path: string, texts: seq<string>)
    ensures forall i :: 0 <= i < |KeptPages(path, texts)| ==>
      var d := KeptPages(path, texts)[i];
      && d.page.Some? && d.page.value < |texts|
      && d.pageContent == texts[d.page.value]
      && d.source == path
      && !AllSpace(d.pageContent)
    ensures forall i, j :: 0 <= i < j < |KeptPages(path, texts)| ==>
      KeptPages(path, texts)[i].page.value < KeptPages(path, texts)[j].page.value
    ensures forall p :: 0 <= p < |texts| && !AllSpace(texts[p]) ==>
      Document(texts[p], Some(p), path) in KeptPages(path, texts)
  {
    if texts != [] {
      var last := |texts| - 1;
      var front := texts[..last];
      KeptPagesExactly(path, front);
      StripEmptyIffBlank(texts[last]);
      var r0 := KeptPages(path, front);
      var r := KeptPages(path, texts);
      assert r == r0 + (if Strip(texts[last]) != "" then [Document(texts[last], Some(last), path)] else []);
      forall p | 0 <= p < |texts| && !AllSpace(texts[p])
        ensures Document(texts[p], Some(p), path) in r
      {
        if p < last {
          assert front[p] == texts[p];
          assert Document(front[p], Some(p), path) in r0;
        }
      }
      forall i | 0 <= i < |r|
        ensures r[i].page.Some? && r[i].page.value < |texts|
        ensures r[i].pageContent == texts[r[i].page.value]
        ensures r[i].source == path && !AllSpace(r[i].pageContent)
        ensures i < |r0| ==> r[i].page.value < last
      {
        if i < |r0| {
          assert r[i] == r0[i];
          assert r0[i].page.Some? && r0[i].page.value < last;
          assert front[r0[i].page.value] == texts[r0[i].page.value];
        } else {
          assert r[i] == Document(texts[last], Some(last), path);
        }
      }
      forall i, j | 0 <= i < j < |r|
        ensures r[i].page.value < r[j].page.value
      {
        if j < |r0| {
          assert r[i] == r0[i] && r[j] == r0[j];
        }
      }
    }
  }

  /** How many pages are read before PyMuPDF raises at page `raisesAt` (all of them if it never does). */
  function PagesRead(pageCount: nat, raisesAt: Option<nat>): (r: nat)
    ensures r <= pageCount
  {
    match raisesAt
    case None => pageCount
    case Some(k) => if k < pageCount then k else pageCount
  }

  /**
   * `load_pdf_with_pymupdf`: the non-blank pages in order; when opening the
   * file or reading page `raisesAt` raises, the pages gathered so far.
   * A failure to open the file is `raisesAt == Some(0)`.
   */
  method LoadPdf(path: string, pageTexts: seq<string>, raisesAt: Option<nat>)
    returns (documents: seq<Document>)
    ensures documents == KeptPages(path, pageTexts[..PagesRead(|pageTexts|, raisesAt)])
  {
    documents := [];
    var pageNum := 0;
    while pageNum < |pageTexts|
      invariant 0 <= pageNum <= |pageTexts|
      invariant forall k :: 0 <= k < pageNum ==> raisesAt != Some(k)
      invariant documents == KeptPages(path, pageTexts[..pageNum])
    {
      if raisesAt == Some(pageNum) {
        break;
      }
      var text := pageTexts[pageNum];
      assert pageTexts[..pageNum + 1][..pageNum] == pageTexts[..pageNum];
      if Strip(text) != "" {
        documents := documents + [Document(text, Some(pageNum), path)];
      }
      pageNum := pageNum + 1;
    }
  }

  // ---------------------------------------------------------------------
  // Citations and fallback answers

  /** The page part of a citation: the page number in decimal, or "Unknown" without one. */
  function PageLabel(page: Option<nat>): (r: string)
    ensures page.None? ==> r == "Unknown"
    ensures page.Some? ==> (forall i :: 0 <= i < |r| ==> IsDigit(r[i])) && DecimalValue(r) == page.value
    ensures page.Some? && |r| > 1 ==> r[0] != '0'
  {
    match page
    case None => "Unknown"
    case Some(p) => DecimalRoundTrip(p); NatToDecimal(p)
  }

  /** `page_content[:150].replace("\n", " ")`. */
  function Snippet(content: string): (r: string)
    ensures |r| == Min(|content|, SnippetKept)
    ensures forall i :: 0 <= i < |r| ==> r[i] == if content[i] == '\n' then ' ' else content[i]
    ensures '\n' !in r
  {
    ReplaceChar(Truncate(content, SnippetKept), '\n', ' ')
  }

  /** The citation of one retrieved document. */
  function Citation(doc: Document): (r: string)
    ensures |r| >= 9 && r[..5] == "Page " && r[|r| - 3..] == "..."
  {
    "Page " + PageLabel(doc.page) + ": " + Snippet(doc.pageContent) + "..."
  }

  /**
   * A citation reads "Page ", the page label, ": ", a snippet of the first
   * (at most) 150 characters of the content with newlines turned into spaces,
   * and "...".
   */
  lemma CitationLayout(doc: Document)
    ensures var c := Citation(doc);
      var pageTag := PageLabel(doc.page);
      && |c| == 5 + |pageTag| + 2 + Min(|doc.pageContent|, SnippetKept) + 3
      && c[..5] == "Page "
      && c[5..5 + |pageTag|] == pageTag
      && c[5 + |pageTag|..7 + |pageTag|] == ": "
      && c[7 + |pageTag|..|c| - 3] == Snippet(doc.pageContent)
      && c[|c| - 3..] == "..."
  {
    var pageTag := PageLabel(doc.page);
    var snip := Snippet(doc.pageContent);
    var c := Citation(doc);
    assert c == "Page " + pageTag + ": " + snip + "...";
  }

  /** The answer given when no LLM is available or the chain raises. */
  function FallbackAnswer(context: string): (r: string)
    ensures |r| == |FallbackIntro| + Min(|context|, FallbackContextKept) + 3
    ensures r[..|FallbackIntro|] == FallbackIntro
    ensures r[|FallbackIntro|..|r| - 3] <= context
    ensures r[|r| - 3..] == "..."
  {
    var kept := Truncate(context, FallbackContextKept);
    var r := FallbackIntro + kept + "...";
    assert r[|FallbackIntro|..|r| - 3] == kept;
    r
  }

  // ---------------------------------------------------------------------
  // The engine

  /** The module globals `vector_store`, `retriever` and `llm`. */
  class RagEngine {
    var vectorStore: Option<seq<Document>>
    var retriever: Option<Retriever>
    /** The Ollama model in use, when the connection test succeeded. */
    var llm: Option<string>

    ghost predicate Valid()
      reads this
    {
      && (retriever.Some? <==> vectorStore.Some?)
      && (retriever.Some? ==> retriever.value == Retriever(vectorStore.value, RetrieverK))
      && (llm.Some? ==> retriever.Some?)
    }

    /** Nothing ingested yet. */
    constructor ()
      ensures Valid()
      ensures vectorStore.None? && retriever.None? && llm.None?
    {
      vectorStore := None;
      retriever := None;
      llm := None;
    }

    /**
     * `ingest_pdf`: a PDF without any non-blank page raises before any global
     * is touched; otherwise the split chunks become the new store, the
     * retriever searches them, and `llm` is whatever connecting to Ollama gave.
     * The result is the number of chunks.
     */
    method IngestPdf(path: string, pageTexts: seq<string>, raisesAt: Option<nat>,
                     split: seq<Document> -> seq<Document>, ollama: Option<string>)
      returns (result: Result<nat, string>)
      requires Valid()
      modifies this
      ensures Valid()
      ensures var documents := KeptPages(path, pageTexts[..PagesRead(|pageTexts|, raisesAt)]);
        documents == [] ==>
          && result == Failure(EmptyPdfError)
          && vectorStore == old(vectorStore) && retriever == old(retriever) && llm == old(llm)
      ensures var documents := KeptPages(path, pageTexts[..PagesRead(|pageTexts|, raisesAt)]);
        documents != [] ==>
          && result == Success(|split(documents)|)
          && vectorStore == Some(split(documents))
          && retriever == Some(Retriever(split(documents), RetrieverK))
          && llm == ollama
    {
      var documents := LoadPdf(path, pageTexts, raisesAt);
      if documents == [] {
        return Failure(EmptyPdfError);
      }
      var texts := split(documents);
      vectorStore := Some(texts);
      retriever := Some(Retriever(texts, RetrieverK));
      llm := ollama;
      return Success(|texts|);
    }

    /**
     * `get_answer`: without a retriever, the fixed request to upload a PDF and
     * no citations; otherwise one citation per retrieved document, in order,
     * and the chain's answer, or the fallback answer over the joined context
     * when there is no LLM or the chain raises.
     */
    method GetAnswer(question: string, search: (Retriever, string) -> seq<Document>,
                     chain: (string, string, string) -> Result<string, string>)
      returns (answer: string, citations: seq<string>)
      ensures retriever.None? ==> answer == NoKnowledgeBaseAnswer && citations == []
      ensures retriever.Some? ==>
        var docs := search(retriever.value, question);
        && |citations| == |docs|
        && (forall i :: 0 <= i < |docs| ==> citations[i] == Citation(docs[i]))
      ensures retriever.Some? && llm.None? ==>
        answer == FallbackAnswer(FormatDocs(search(retriever.value, question)))
      ensures retriever.Some? && llm.Some? ==>
        var context := FormatDocs(search(retriever.value, question));
        var outcome := chain(llm.value, context, question);
        answer == if outcome.Success? then outcome.value else FallbackAnswer(context)
    {
      if retriever.None? {
        return NoKnowledgeBaseAnswer, [];
      }
      var docs := search(retriever.value, question);

      citations := [];
      for i := 0 to |docs|
        invariant |citations| == i
        invariant forall j :: 0 <= j < i ==> citations[j] == Citation(docs[j])
      {
        var page := PageLabel(docs[i].page);
        var snippet := Snippet(docs[i].pageContent) + "...";
        citations := citations + ["Page " + page + ": " + snippet];
      }

      var context := FormatDocs(docs);
      if llm.None? {
        return FallbackAnswer(context), citations;
      }
      match chain(llm.value, context, question)
      case Success(generated) =>
        answer := generated;
      case Failure(_) =>
        answer := FallbackAnswer(context);
    }
  }
}
