# Lead checker: a Dafny model

`leads_scaper_enhanced.py` is a short lead-qualification script. For each company domain in a list, it does three things:

1. It normalises the domain into an `https://` origin. It fetches five fixed pages (home, `about`, `careers`, `blog`, `news`), sleeping after each fetch. It keeps the page texts longer than 100 characters and joins them with newlines into the company's *digital footprint*.
2. When the footprint is non-empty, it asks a hosted language model whether the company is a good B2B lead. The request has a fixed system instruction that ends with an industry label, and a user message that is the footprint itself. When the footprint is empty, it records `"No data"`.
3. It appends a `(company, verdict)` row to a result table.

This project models that pipeline in Dafny. The network, the HTML parser and the model are parameters:

- `fetch: string -> string` is the page text source. A failed fetch yields `""`, as the script's exception handler returns.
- `classify: (string, string) -> string` is `check_lead(footprint, industry)` as the run loop sees it.
- `complete: Request -> string` is the hosted model that `check_lead` asks.

Sleeping is a `Throttle` event in a trace.

Modules, one per part of the script:

- `Text`: an `Option` type, first-occurrence search and substring occurrence, shared by the others.
- `Urls`: `domain.strip('/')`, the origin, the candidate URLs for the fixed page list, and a parser that reads a URL back into host and path.
- `Collector`: `get_digital_footprint`.
  - The length filter, the newline join and its inverse, and the fetch/sleep trace, as functions.
  - The collector itself as a method with a loop, proved equal to those functions.
- `LeadCheck`: the request `check_lead` sends.
  - It has the model name, the one-token output cap and the non-streaming flag.
  - Its system instruction is built exactly as the script builds it, with the industry label spliced in before the closing `**`.
  - Its user message is the footprint. A reader function recovers the label from an instruction.
- `Orchestrator`: the run loop.
  - Verdicts, the table and the run trace are functions.
  - The loop body and the loop are methods proved against them.
  - The script's own run (three companies, `"Software development"`) is included.

## Model

| member | source | states |
|---|---|---|
| Urls.TrimLeading | leads_scaper_enhanced.py:25 | the result is a suffix of the input; what was removed is all slashes; the result does not start with `/` |
| Urls.TrimTrailing | leads_scaper_enhanced.py:25 | the result is a prefix of the input; what was removed is all slashes; the result does not end with `/` |
| Urls.StripSlashes | leads_scaper_enhanced.py:25 | `strip('/')` leaves no slash at either end |
| Urls.StripSlashesShape | leads_scaper_enhanced.py:25 | every domain is a slash-only prefix, then its stripped form, then a slash-only suffix |
| Urls.StripSlashesUnique | leads_scaper_enhanced.py:25 | for any slash-only `p`, `q` and any `m` with no edge slash, stripping `p + m + q` gives exactly `m`, interior slashes and all other characters unchanged |
| Urls.StripSlashesIdempotent | leads_scaper_enhanced.py:25 | stripping twice equals stripping once |
| Urls.BaseOriginOf | leads_scaper_enhanced.py:25 | the origin of a domain shaped `p + m + q` is `"https://" + m` |
| Urls.CandidateUrls | leads_scaper_enhanced.py:12 | one candidate URL per entry of the five-entry page list |
| Urls.HomeUrl | leads_scaper_enhanced.py:28-29 | the first candidate URL, for path `""`, is exactly the origin followed by one `/` |
| Urls.PagesDistinct | leads_scaper_enhanced.py:12 | the five relative paths are pairwise different |
| Urls.CandidateUrlsDistinct | leads_scaper_enhanced.py:12-29 | a domain's five candidate URLs are pairwise different |
| Urls.SplitBuiltUrl | leads_scaper_enhanced.py:29 | `"https://" + host + "/" + path` with a slash-free host parses back into that host and path |
| Urls.SplitCandidateUrl | leads_scaper_enhanced.py:25-29 | when the stripped domain holds no `/`, every candidate URL parses back into the stripped domain and the path it was built from |
| Urls.SplitUrlSound | leads_scaper_enhanced.py:29 | whatever the parser accepts is `"https://" + host + "/" + path` for the parts it returns, and the host is slash-free |
| Collector.KeepLongMembers | leads_scaper_enhanced.py:31-33 | a text is kept iff it is one of the inputs and strictly longer than 100 characters, so texts of length 100 or less, failed fetches included, are dropped; the kept list is no longer than the input |
| Collector.KeepLongAppend | leads_scaper_enhanced.py:28-33 | filtering distributes over concatenation, so the kept texts stay in page order |
| Collector.KeepLongEmpty | leads_scaper_enhanced.py:31-33 | nothing is kept iff no input text is longer than 100 characters |
| Collector.JoinLines | leads_scaper_enhanced.py:36 | the joined length is the total length of the lines plus one separator between each pair of neighbours |
| Collector.SplitJoinLines | leads_scaper_enhanced.py:36 | splitting the join of newline-free lines at `'\n'` gives the lines back |
| Collector.JoinLinesEmpty | leads_scaper_enhanced.py:36 | with no empty line, the join is empty iff there are no lines |
| Collector.ThrottledTraceShape | leads_scaper_enhanced.py:28-34 | the trace has two events per URL, a fetch of that URL and then a sleep, in URL order |
| Collector.FetchedUrlsOfTrace | leads_scaper_enhanced.py:28-31 | the fetches of the trace are exactly the given URLs, each once, in order |
| Collector.DomainTraceShape | leads_scaper_enhanced.py:28-34 | a domain's trace has ten events, fetch and sleep alternating and ending with a sleep, with the fetches going to the five candidate URLs in page order |
| Collector.CollectFootprint | leads_scaper_enhanced.py:24-36 | the loop returns the newline-join of the kept page texts in page order, and the fetch/sleep trace of the domain |
| Collector.FootprintEmpty | leads_scaper_enhanced.py:31-36 | the footprint is empty iff none of the five page texts is longer than 100 characters |
| Collector.SinglePageFootprint | leads_scaper_enhanced.py:32-36 | when exactly one page is kept, the footprint is that page's text with no newline added |
| Collector.FootprintLines | leads_scaper_enhanced.py:32-36 | when some page is kept and no kept text holds a newline, splitting the footprint at newlines gives back the kept texts in page order |
| LeadCheck.BuildRequest | leads_scaper_enhanced.py:48-74 | the request names the fixed model and caps output at one token without streaming; it has a system message whose industry label reads back as the given industry, and a user message equal to the footprint |
| LeadCheck.IndustryOfSystemPrompt | leads_scaper_enhanced.py:53-63 | the label spliced into the instruction is recovered unchanged |
| LeadCheck.IndustryOfSound | leads_scaper_enhanced.py:53-63 | any instruction from which a label is recovered is the instruction built for that label |
| LeadCheck.SystemPromptInjective | leads_scaper_enhanced.py:62 | different labels give different instructions |
| LeadCheck.IndustryVerbatim | leads_scaper_enhanced.py:62 | the label occurs verbatim in the instruction, as its final text before the closing `**` |
| Orchestrator.RowsAt | leads_scaper_enhanced.py:91-103 | the table has one row per company, duplicates included, in input order, each keyed by the company string as given |
| Orchestrator.ProcessCompany | leads_scaper_enhanced.py:92-103 | one iteration yields the row `(company, verdict)` and that company's fetch/sleep/classify steps |
| Orchestrator.Run | leads_scaper_enhanced.py:91-103 | after the loop there is exactly one row per company, in order, holding the company as given and its verdict; the trace is the run's steps company after company |
| Orchestrator.VerdictWithoutData | leads_scaper_enhanced.py:95-101 | a company none of whose pages is longer than 100 characters gets `"No data"` |
| Orchestrator.VerdictWithData | leads_scaper_enhanced.py:93-98 | a company with a page longer than 100 characters has a non-empty footprint and gets the classifier's answer on `(footprint, industry)` |
| Orchestrator.CallsOfCompanyTrace | leads_scaper_enhanced.py:95-101 | one company's steps call the classifier once, on `(footprint, industry)`, when the footprint is non-empty, and never otherwise |
| Orchestrator.CallsOfRun | leads_scaper_enhanced.py:91-101 | over a run, the classifier is called exactly once per company with a non-empty footprint, in input order, and for no other company |
| Orchestrator.ExpectedCallsCarryData | leads_scaper_enhanced.py:95-98 | every classifier call receives a non-empty footprint and the run's industry label |
| Orchestrator.LabelReachesModel | leads_scaper_enhanced.py:53-67 | with `check_lead` as the classifier, a model that answers "Yes" exactly when the label appears in the system instruction answers "Yes" for every company with a footprint |
| Orchestrator.Demo | leads_scaper_enhanced.py:86-103 | the script's run over its three companies with `"Software development"` yields three rows, keyed by those companies in order, each with its verdict |

## Left out

- The HTTP request, its headers and its five-second timeout (leads_scaper_enhanced.py:6-10, 16). The BeautifulSoup paragraph extraction and `' '.join`, and the exception handler (lines 17-22). These are network I/O and a foreign library, so page text comes from the `fetch` parameter, with a failure yielding `""`.
- `fetch` is one fixed function, so a company listed twice gets the same texts both times. Real pages could change between requests.
- The Groq client, its API key, the `temperature` and `top_p` floats, `choices[0]` and the `.strip()` of the reply (lines 46, 70, 72, 76). This is a foreign network API. `complete` is a total function whose result is taken to be the stripped reply. An API failure would abort the script, and that is not modelled.
- The duration of `time.sleep(1.5)` (line 34): each sleep is only a `Throttle` event.
- The `print` diagnostics, the pandas DataFrame and the final `print(df)` (lines 21, 30, 89, 92, 96-97, 100, 105). The table is a sequence of `Row` values.
- Urls.Join: `urljoin(origin + "/", path)` is modelled as concatenation. That holds only for the five fixed relative paths and a stripped domain with no `?`, `#`, brackets, whitespace or control characters, and with no empty, `.` or `..` segments when it contains `/`. For other domains `urljoin` can resolve differently, or raise on a malformed bracket outside the exception handler. General `urljoin` behaviour is not modelled.
- The verdict is a plain string, as the code records it: the model's reply or `"No data"`. It is not a tagged Yes/No/NoData value, and the model's reply is not checked to be "Yes" or "No".
