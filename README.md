# PDF chatbot backend: metrics store and answer assembly, in Dafny

This project models two parts of the chatbot's Python backend.

**The metrics store** (`backend/app/observability.py`, module `Observability`).
This is process-wide state held in three structures:
- a log of chat interactions, capped at 1000 entries;
- a log of errors, capped at 100 entries;
- per-day counters keyed by a `YYYY-MM-DD` date string.

It is modelled as the class `MetricsStore`. Its fields `interactions` and
`errors` are sequences. Its field `daily` is a map, and `dayOrder` keeps the
map's keys in insertion order, because the summary shows "the last seven
days" by dictionary order. The logging methods change the fields step by
step, as the source does. Each method's postcondition gives the new state
as a function of the old one: `Evicting`, `CountQuery`, `CountError`,
`RegisterDay`. The lemmas then prove properties of those functions. The
summary (`Summarize`) and the history query (`History`) are pure functions
over the store's contents.

**The answer assembly** (`backend/app/rag.py`, module `Rag`). This covers:
- joining retrieved pages into a context;
- keeping the non-blank pages of a PDF;
- the guard in `ingest_pdf` that raises before the module globals change;
- one citation per retrieved document;
- the fallback answers of `get_answer`.

The module globals `vector_store`, `retriever` and `llm` are the fields of
the class `RagEngine`. The foreign services are parameters:
- the per-page text PyMuPDF extracts, and the page at which it raises;
- the text splitter;
- the outcome of connecting to Ollama;
- the vector-store search;
- the prompt chain.

The module `Strings` holds the Python primitives both parts use:
- `s[:n]`, `s[start:]` and `s[::-1]`;
- `sep.join`;
- `str.strip` with Python's whitespace set;
- a one-character `str.replace`;
- `str(n)`.

Behaviour of the code worth knowing:
- p95 is `sorted[int(n * 0.95)]`. For the twenty latencies 100, 200, …, 2000
  that is 2000, the largest, where a nearest-rank p95 would be 1900
  (`P95OfTwentyIsLargest`).
- Each log drops its oldest entry once it holds more than 1000 interactions
  or 100 errors.
- The recent interactions and recent errors of the summary, and the
  history, are listed newest first.
- An error on a day without any interaction is not counted in any day bucket.

## Model

| member | source | states |
|---|---|---|
| `Strings.Truncate` | backend/app/observability.py:34-35 | `s[:n]` is the prefix of `s` of length min(len(s), n) |
| `Strings.SliceFrom` | backend/app/observability.py:140-141 | Python `s[start:]` for any integer start: a suffix of `s`, of length len(s) - start clipped at 0 for start >= 0, and min(-start, len(s)) for start < 0 |
| `Strings.Reverse` | backend/app/observability.py:128 | `s[::-1]` has the same length and holds `s[len(s)-1-i]` at position i |
| `Strings.NewestFirstWindow` | backend/app/observability.py:128-129 | for k >= 1, `s[-k:][::-1]` is the last min(k, len(s)) elements of `s`, newest first |
| `Strings.JoinLength` | backend/app/rag.py:15-16 | the joined text is as long as all items plus one separator between each consecutive pair (empty for no items) |
| `Strings.JoinPlacesItems` | backend/app/rag.py:15-16 | each item appears in order at its offset, followed by exactly one separator except the last one, which ends the text |
| `Strings.StripEmptyIffBlank` | backend/app/rag.py:28 | `text.strip()` is empty exactly when every character is Python whitespace |
| `Strings.ReplaceChar` | backend/app/rag.py:118 | replacing one character by another keeps the length and changes exactly the occurrences of that character |
| `Strings.NatToDecimal` | backend/app/rag.py:119 | `str(n)` is a non-empty string of decimal digits with no leading zero: it starts with 0 only for n = 0, and then it is the single digit |
| `Strings.DecimalRoundTrip` | backend/app/rag.py:119 | reading back `str(n)` as a decimal number gives n |
| `Observability.NewInteraction` | backend/app/observability.py:31-44 | the stored record has `tokens_total = tokens_input + tokens_output`, a question and answer preview that are prefixes of the inputs of length min(len, 200) and min(len, 100), and every other argument stored as given |
| `Observability.NewError` | backend/app/observability.py:77-82 | the stored message is a prefix of the input of length min(len, 500); a missing context is stored as `{}` and a given one as it is; type and timestamp are stored as given |
| `Observability.Evicting` | backend/app/observability.py:46-66 | appending and then dropping the oldest entry past the cap gives a suffix of the grown log that loses at most the oldest entry; the log grows by one, keeping its oldest entry, exactly when it was below its cap; the new entry ends the log whenever the cap is at least 1 |
| `Observability.EvictingKeepsNewest` | backend/app/observability.py:64-66 | appending to a log within its cap keeps the newest `cap` entries: the new record last; when the log was full, exactly the oldest is dropped and the rest keep their order |
| `Observability.RegisterDay` | backend/app/observability.py:49-50 | the dictionary's key order only grows, by exactly one key when the date had no bucket and by none otherwise, and afterwards lists the old keys plus the date exactly when the date had no bucket |
| `Observability.CountQuery` | backend/app/observability.py:49-62 | the date's bucket is created zeroed if absent, then gains 1 query, the tokens, the latency, and 1 refusal exactly when refused; its error count and every other date's bucket are unchanged |
| `Observability.CountError` | backend/app/observability.py:86-88 | an existing bucket of the date gains one error; no bucket is created and no other bucket changes |
| `Observability.CountQueryKeepsDays` | backend/app/observability.py:49-56 | counting a query keeps the key order listing each bucket once, a new date going last, and keeps every bucket's refusals within its queries |
| `Observability.CountErrorKeepsDays` | backend/app/observability.py:86-88 | counting an error keeps the key order and every bucket well formed |
| `Observability.ErrorNeverCreatesDay` | backend/app/observability.py:86-88 | logging an error on a date without a bucket leaves the day counters as they were, and never changes their number |
| `Observability.MetricsStore.constructor` | backend/app/observability.py:11-13 | the three stores start empty |
| `Observability.MetricsStore.LogInteraction` | backend/app/observability.py:15-66 | the interaction log becomes the capped append of the new record, the day counters become `CountQuery` of the old ones, a new date is added last to the key order, and the error log is unchanged; the caps and bucket invariants hold after |
| `Observability.MetricsStore.CountInDay` | backend/app/observability.py:49-62 | the buckets become `CountQuery` of the old ones and the key order `RegisterDay` of the old one, keeping the key order and bucket invariants; the two logs are unchanged |
| `Observability.MetricsStore.LogError` | backend/app/observability.py:68-92 | the error log becomes the capped append of the new record, the day counters become `CountError` of the old ones, and the interaction log and key order are unchanged |
| `Observability.MetricsStore.SummaryTokensOfStore` | backend/app/observability.py:37-39 | every stored record keeps `tokens_total = tokens_input + tokens_output` (part of the store invariant), so the summary of the store reports the input plus output tokens of all its records |
| `Observability.MetricsStore.Clear` | backend/app/observability.py:143-149 | all three stores are empty afterwards and the call reports true |
| `Observability.Sort` | backend/app/observability.py:114 | `sorted` returns the ascending permutation of the latencies |
| `Observability.RecentDays` | backend/app/observability.py:130 | `dict(list(daily_stats.items())[-7:])` holds the last min(7, d) dates of the key order, each with its bucket, in insertion order |
| `Observability.Summarize` | backend/app/observability.py:94-131 | the short form is reported exactly when the interaction log is empty, and then its total queries, average latency and total tokens are 0 and its recent interactions and daily stats are empty, even when day buckets exist; in both forms total queries is the length of the interaction log and the error count is the length of the error log |
| `Observability.PercentileIndicesInRange` | backend/app/observability.py:114-116 | for n >= 1 both `n // 2` and `n * 95 // 100` lie in [0, n) with the p50 index not after the p95 index; for n = 20 the p95 index is 19 |
| `Observability.P50Latency` | backend/app/observability.py:114-121 | `latencies[len // 2]` of the sorted latencies is one of the logged latencies |
| `Observability.P95Latency` | backend/app/observability.py:114-122 | `latencies[int(len * 0.95)]` (or the last one for a single record) of the sorted latencies is one of the logged latencies |
| `Observability.P50AtMostP95` | backend/app/observability.py:114-122 | the p50 latency never exceeds the p95 latency |
| `Observability.P95OfTwentyIsLargest` | backend/app/observability.py:116-122 | with twenty interactions p95 is at least every logged latency: the maximum, not the nearest-rank 19th value |
| `Observability.PercentilesOfLog` | backend/app/observability.py:114-122 | over a non-empty log, p50 and p95 are logged latencies and p50 <= p95; with twenty interactions p95 is the largest latency |
| `Observability.SummaryPercentiles` | backend/app/observability.py:114-122 | the summary's reported p50 and p95 are latencies of logged interactions and p50 <= p95; with twenty interactions p95 is the largest latency |
| `Observability.AverageLatencyBounds` | backend/app/observability.py:108 | the mean of the logged latencies lies within any bounds that hold for every one of them |
| `Observability.SummaryAverageLatencyBounds` | backend/app/observability.py:108 | the summary's reported average latency lies within any bounds that hold for every logged latency |
| `Observability.AverageConfidenceBounds` | backend/app/observability.py:110 | the mean of the logged confidences lies within any bounds that hold for every one of them |
| `Observability.SummaryAverageConfidenceBounds` | backend/app/observability.py:110 | the summary's reported average confidence lies within any bounds that hold for every logged confidence |
| `Observability.SumTokenTotals` | backend/app/observability.py:109 | when every record's total is its input plus output tokens, the sum of the totals is the sum of all input and output tokens |
| `Observability.SummaryTotalTokens` | backend/app/observability.py:96-109 | for records built by `log_interaction`, the summary's total tokens, 0 for an empty log, are the input plus output tokens of all logged records |
| `Observability.CountRefusedAtMost` | backend/app/observability.py:111 | the refused records are at most all logged records |
| `Observability.SummaryRefusedRate` | backend/app/observability.py:111-126 | the refused rate lies in [0, 100] |
| `Observability.SummaryRecentInteractions` | backend/app/observability.py:128 | the summary's recent interactions are the last min(10, n) logged interactions, newest first |
| `Observability.SummaryRecentErrors` | backend/app/observability.py:129 | the summary's recent errors are the last min(5, m) logged errors, newest first |
| `Observability.SummaryRecentDays` | backend/app/observability.py:130 | the summary's daily stats are the `RecentDays` window, min(7, d) entries long |
| `Observability.LoggedInteractionShownFirst` | backend/app/observability.py:46 | right after an interaction is logged, the summary's most recent interaction is that record |
| `Observability.Matching` | backend/app/observability.py:139 | the filtered list holds exactly the logged records with that session id |
| `Observability.MatchingAppend` | backend/app/observability.py:139 | filtering keeps log order: a record appended to the log is appended to its session's selection |
| `Observability.Selected` | backend/app/observability.py:138-141 | with a non-empty session id only that session's logged records are drawn from, otherwise every logged record; never more records than the log holds |
| `Observability.History` | backend/app/observability.py:133-141 | the history is no longer than the log and draws only from the selected records (order and window in `HistoryNewestFirst` and `HistoryNonPositiveLimit`) |
| `Observability.HistoryOnlySession` | backend/app/observability.py:138-140 | with a non-empty session id, the history holds only logged records of that session |
| `Observability.HistoryNewestFirst` | backend/app/observability.py:138-141 | for limit >= 1, the history is the newest min(limit, n) selected records, newest first |
| `Observability.HistoryNonPositiveLimit` | backend/app/observability.py:140-141 | `[-limit:]` with limit 0 returns every selected record, newest first; a negative limit drops the oldest -limit records |
| `Observability.LoggedInteractionHeadsHistory` | backend/app/observability.py:133-141 | for a positive limit and a non-empty session id, right after an interaction is logged, that session's history starts with the new record |
| `Rag.FormatDocs` | backend/app/rag.py:15-16 | no documents give the empty context; otherwise the context is as long as all page contents plus one blank-line separator between consecutive ones (placement in `JoinPlacesItems`) |
| `Rag.KeptPages` | backend/app/rag.py:24-32 | no more documents are kept than pages were read (which ones in `KeptPagesExactly`) |
| `Rag.KeptPagesExactly` | backend/app/rag.py:24-32 | the kept documents are exactly the pages whose text is not all whitespace, each with its text, 0-based page number and file path, in increasing page order |
| `Rag.PagesRead` | backend/app/rag.py:22-36 | no more pages are read than the PDF has |
| `Rag.LoadPdf` | backend/app/rag.py:18-38 | the loader returns the kept pages among those read before PyMuPDF raises, or among all pages when it never does |
| `Rag.PageLabel` | backend/app/rag.py:117-119 | the page label is "Unknown" without page metadata, and otherwise decimal digits with no leading zero that read back as the page number |
| `Rag.Snippet` | backend/app/rag.py:118 | the snippet is the first min(len, 150) characters of the content with every newline turned into a space, so it has no newline |
| `Rag.Citation` | backend/app/rag.py:117-119 | every citation starts with "Page " and ends with "..." (the full layout in `CitationLayout`) |
| `Rag.CitationLayout` | backend/app/rag.py:117-119 | a citation is "Page ", the page label, ": ", the snippet and "...", each at its position |
| `Rag.FallbackAnswer` | backend/app/rag.py:125 | the fallback answer is the fixed introduction, a prefix of the context of length min(len, 1500), and "..." |
| `Rag.RagEngine.constructor` | backend/app/rag.py:11-13 | no vector store, retriever or LLM before the first ingestion |
| `Rag.RagEngine.IngestPdf` | backend/app/rag.py:62-103 | a PDF with no kept page fails with the `ValueError` message and leaves the store, retriever and LLM as they were; otherwise the split chunks become the store and the retriever's corpus, with k = 3, the LLM is the outcome of connecting to Ollama, and the result is the chunk count |
| `Rag.RagEngine.GetAnswer` | backend/app/rag.py:105-156 | without a retriever: the fixed upload request and no citations; otherwise one citation per retrieved document, in retrieval order, and the chain's answer, or the fallback over the joined context when there is no LLM or the chain fails |

## Left out

- Time: `datetime.now()`, `strftime` and `isoformat` are replaced by the timestamp and date key passed to each logging call.
- `NewInteraction`: takes the latency as whole milliseconds. It does not model the float heuristic `int(latency*1000) if latency < 100 else int(latency)` (observability.py:36), which works on floats.
- `NewInteraction`: stores the confidence as given. It does not model `round(confidence, 3)`.
- `Summarize`: computes the averages and the refused rate as exact quotients of reals. The source rounds them with `round(..., 2)`, `round(..., 3)` and `round(..., 1)`, which is not modelled.
- `P95Index`: computes `n * 95 // 100` in exact integer arithmetic. The source uses the float product `int(n * 0.95)`.
- `Summarize` leaves out the guards `if latencies else 0` and `if total_queries else 0`, which cannot fire once the log is non-empty.
- Python dictionaries of arbitrary values become typed records. The error `context` is a map from strings to strings.
- `RagEngine.IngestPdf` takes the outcome of `init_ollama` as a parameter. Reading `OLLAMA_MODEL` / `OLLAMA_BASE_URL` and the connection test are not modelled.
- Foreign libraries are parameters whose behaviour is not modelled:
  - PyMuPDF text extraction;
  - `RecursiveCharacterTextSplitter` (chunk size 1000, overlap 100);
  - the HuggingFace embeddings;
  - Chroma, including what persists in `./chroma_db` across ingestions: the model takes the store to hold the latest split chunks;
  - the retriever's similarity search;
  - the LangChain/Ollama prompt chain and its prompt text.
- `RagEngine.GetAnswer`: the retriever search is a total function. An exception from `retriever.invoke`, which the source does not catch, is not modelled.
- `RagEngine.GetAnswer`: any failure inside the source's `try` block counts as a chain failure. This includes a failure building the prompt.
- `LoadPdf`: the only exception modelled is PyMuPDF raising when the file is opened or a page is read. A failure to open the file is the same as raising at page 0. A failure in `doc.close()` is not modelled.
- `print` diagnostics and `traceback` output.
- Concurrency: the module globals are unsynchronised and nothing in the code is about concurrency.
- `backend/app/main.py` (HTTP routing, upload transport, static files) is not part of this model. It calls `get_answer` with arguments and results that `rag.py` does not have, and imports functions that `rag.py` does not define.
