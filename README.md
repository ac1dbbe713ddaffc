# LCIA legal-consultation core in Dafny

This project models the logic behind the LCIA Streamlit legal-consultation page (`utils.py` and `main.py`). The model covers these parts:

- **Catalog.** The thirteen legal domains and their sample questions.
- **Prompt.** The `PROMPT_TEMPLATE` and the `str.format`-style substitution that fills its three fields.
  - `Prompt.Format` is a small formatter. It handles `{{`, `}}`, `{name}` and its error cases.
  - The template is written as the escaped text between the fields.
- **Credentials.** How the API key and endpoint are resolved from the secrets store, a `.env` file and the environment.
- **Agent.** The branches of `legal_agent`: missing key, call raised, reply not JSON, and reply decoded.
- **Documents.** How an uploaded document is read:
  - the file type taken from its name;
  - the PDF, DOCX and TXT extraction;
  - the list of types offered for upload;
  - the 1000-character preview.
- **Reports.** The texts built around a consultation:
  - the two `full_query` strings;
  - the numbered steps and bulleted references;
  - the three downloadable reports;
  - the download link, which carries a report as Base64 (section 4 of RFC 4648) of its UTF-8 bytes.
- **Session.** `st.session_state` of one browser session, as a class over a map from keys to values:
  - `init_session_state`, the domain selector, the sample-question buttons and the clear button;
  - reading an upload;
  - the three consultation buttons, each of which appends one history entry, and the failure of `result.get` on a result that is not an object, and the `TypeError` of references or steps the page cannot print;
  - the history window `reversed(history[-5:])`.

Foreign code and I/O become parameters:

- The chat model is a function `llm` from the request to `Replied(text)` or `Raised(error)`.
- `json.loads` is a function `loads` from the reply to `Parsed(value)` or `NotJson`.
- PyPDF2 and python-docx are the page and paragraph texts an upload carries. `None` stands for a parser that raised.
- The secrets store, `.env` and the environment are the optional values of `Credentials.Sources`.
- The clock is a `timestamp` parameter.

Files, one module each:

| file | module | contents |
|---|---|---|
| `wrappers.dfy` | `Wrappers` | `Option`, `Result` |
| `text.dfy` | `Text` | join, split, concatenation, ASCII `lower`, `str(n)`, character search |
| `utf8.dfy` | `Utf8` | `str.encode()` and strict `bytes.decode("utf-8")` |
| `base64.dfy` | `Base64` | `base64.b64encode` and a decoder |
| `json.dfy` | `JsonValues` | decoded JSON values, `dict.get` |
| `catalog.dfy` | `Catalog` | `LEGAL_DOMAINS`, `SAMPLE_QUESTIONS` |
| `prompt.dfy` | `Prompt` | formatter and `PROMPT_TEMPLATE` |
| `credentials.dfy` | `Credentials` | `get_api_credentials` |
| `agent.dfy` | `Agent` | `legal_agent` |
| `documents.dfy` | `Documents` | file type, extraction, supported types, preview |
| `reports.dfy` | `Reports` | queries, reports, download link |
| `session.dfy` | `Session` | session state and page actions |

## Model

| member | source | states |
|---|---|---|
| Catalog.CatalogComplete | utils.py:14-97 | every listed domain has a sample-question entry and every entry belongs to a listed domain; each entry holds exactly three questions |
| Catalog.DomainsDistinct | utils.py:14-28 | no domain is listed twice |
| Catalog.GetLegalDomains | utils.py:125-127 | the catalog as listed: 13 domains, the first being the session's default domain, exactly the keys of the sample questions |
| Catalog.GetSampleQuestions | utils.py:129-131 | a known domain gets its own three questions; any other string gets the default domain's questions |
| Catalog.IndexOf | main.py:117 | `list.index`: the first position holding the value, and `None` exactly when the value is absent |
| Catalog.DomainIndex | main.py:113-118 | the selector finds every catalog domain at its own position |
| Prompt.CloseFrom | utils.py:108-109 | the first `}` at or after a position, or none |
| Prompt.Next | utils.py:100-123 | one step of the scan always consumes at least one character and never more than the template holds |
| Prompt.CloseFromFinds | utils.py:108-109 | the search for the end of a field stops at the first `}` |
| Prompt.EscapePlain | utils.py:100-107 | text without braces reads as itself in a template |
| Prompt.FormatEscaped | utils.py:115-121 | in front of any rest, escaped text (each brace doubled) renders as the original text |
| Prompt.EscapeRoundTrip | utils.py:115-121 | formatting an escaped text gives the text back: `{{`/`}}` become single braces and nothing else changes |
| Prompt.FormatField | utils.py:108-109 | a field `{name}` with a bound, brace-free name is replaced by its value and the scan goes on after it |
| Prompt.ThreeFields | utils.py:108-123 | a template of escaped text and the fields `{consult_type}`, `{legal_domain}`, `{query}` always formats, to the text with the three values in place |
| Prompt.TemplateFormats | utils.py:100-123 | `PROMPT_TEMPLATE.format(...)` succeeds for all inputs and yields the template text with the inputs verbatim at their fields |
| Prompt.ComposePrompt | utils.py:181-187 | the prompt the chain sends is the formatted template, spelled out piece by piece |
| Prompt.FieldStep | utils.py:108-121 | each of the three agent fields is replaced by its argument |
| Credentials.GetApiCredentials | utils.py:133-156 | a successful secrets lookup always supplies the key, even an empty one; any key returned is either the secrets key, paired with the hosted endpoint, or (with no secret and a working `.env` loader) the non-empty env key, paired with `OPENAI_API_BASE` or else the hosted endpoint; no key means no secret and the OpenAI endpoint |
| Credentials.KeyResolved | utils.py:163-165 | a usable key is found exactly when the secrets value is non-empty, or is absent and a working loader leads to a non-empty env key |
| Credentials.NoKeyFallback | utils.py:152-156 | without a key the endpoint is always the fallback; a present key is usable unless the secrets store held the empty string |
| JsonValues.DictGet | main.py:178 | `.get` on an object gives the binding or the default; any other value raises `AttributeError` |
| JsonValues.AsStringsOfStrings | utils.py:166-169 | a list built from strings reads back as those strings |
| Agent.Answer | utils.py:166-169 | the answer/references record has exactly those two keys, holding the given answer and references |
| Agent.RequestFor | utils.py:172-187 | the client gets the resolved key and base, `gpt-3.5-turbo`, temperature 0.2, 4096 tokens, and a prompt equal to the formatted template |
| Agent.Interpret | utils.py:189-196 | a decoded reply is returned unchanged; for a reply that does not decode, the page reads the raw text as the answer, the single reference `无法识别格式化参考`, and no steps |
| Agent.LegalAgent | utils.py:158-208 | a request is sent exactly when a usable key is resolved; with no key, the fixed missing-key answer; a raised call gives the connection message followed by the error text; a reply gives what `Agent.Interpret` makes of it |
| Agent.NonObjectReply | utils.py:189-190 | as written, a reply `[]` is returned as a list, and `.get("answer", "")` on it raises |
| Agent.InterpretChecked | utils.py:189-196 | the corrected interpretation always yields an object; it passes decoded objects through and treats anything else like text that does not decode |
| Agent.LegalAgentChecked | utils.py:158-208 | the corrected agent sends the same request as written; it always returns an object, and equals the written agent whenever that one returns an object |
| Agent.CheckedResultReadable | main.py:178 | every result of the corrected agent can be read with `.get` |
| Text.ConcatIsJoin | main.py:70-73 | accumulating the pages with `+=` equals `"".join` of them |
| Text.Split | main.py:217 | `split` always yields at least one piece |
| Text.SplitJoin | main.py:79 | joining separator-free parts with a one-character separator and splitting again gives the parts back |
| Text.SplitConcat | main.py:337 | splitting at a separator splits the text on either side of it independently |
| Text.SplitLastPiece | main.py:217 | the last piece of `split(".")` is the text after the last dot, or the whole name when it has none |
| Text.Lower | main.py:217 | ASCII `lower` keeps the length and maps each character alone |
| Text.LastIndexOf | main.py:217 | the position of the last occurrence, with none after it, or `None` when absent |
| Text.NatToString | main.py:337 | `str(n)` is non-empty decimal digits without a leading zero |
| Text.ParseNatToString | main.py:337 | the decimal text of `n` reads back as `n` |
| Utf8.DecodeEncode | main.py:90 | `text.encode()` decodes (strictly) back to `text` |
| Utf8.EncodeLength | main.py:90 | UTF-8 takes one to four bytes per character |
| Base64.Value | main.py:90 | an alphabet character's value maps back to that character |
| Base64.DecodeEncode | main.py:90 | decoding the Base64 of any bytes gives those bytes |
| Base64.EncodeLength | main.py:90 | four characters per started group of three bytes |
| Base64.EncodeAlphabet | main.py:90 | the encoder writes only alphabet characters and `=` |
| Documents.FileType | main.py:217 | the lower-cased text after the last dot, or the whole lower-cased name when there is no dot |
| Documents.DisplayDocumentContent | main.py:62-86 | the method, with its page-by-page loop, returns exactly `ExtractText` of the file |
| Documents.ExtractDispatch | main.py:64-86 | text comes back only for `pdf` with PyPDF2, `docx` with python-docx, or `txt`; for `pdf` and `docx`, text comes back exactly when the parser is present and does not raise (a missing parser or any exception gives `None`); `txt` is the strict UTF-8 decode of the bytes |
| Documents.PdfPagesInOrder | main.py:69-73 | a PDF's text is its page texts in order with no separator |
| Documents.DocxParagraphLines | main.py:78-80 | for one or more paragraphs, none holding a line break, splitting a Word file's text at newlines gives its paragraphs back |
| Documents.TxtRoundTrip | main.py:81-82 | a text file holding the UTF-8 of `s` reads as `s` |
| Documents.Accepted | main.py:204-209 | ends with `txt`; lists exactly the types the dispatcher reads with the parsers present, each once, `docx` before `pdf` |
| Documents.SupportedTypes | main.py:204-209 | the list built by the three appends is `Documents.Accepted` |
| Documents.Preview | main.py:223 | content up to 1000 characters unchanged; longer content cut to its first 1000 characters followed by `...` |
| Reports.DocumentQuery | main.py:240 | the prefix, then the document text verbatim, then the question label, then the question verbatim |
| Reports.CaseQuery | main.py:299 | the prefix, then the case description verbatim, then the question label, then the question verbatim |
| Reports.SplitBlock | main.py:196 | a block of single-line items reads back line by line, and as one empty line when there are none |
| Reports.ReferencesReadBack | main.py:196 | for one or more references, none holding a line break, line `i` of the reference block is `- ` followed by reference `i`, one line per reference |
| Reports.ReferencesEmpty | main.py:196 | the reference block is empty exactly when there are no references |
| Reports.StepsReadBack | main.py:337 | for one or more steps, none holding a line break, line `i` of the step block is `i+1`, a dot, a space and step `i`; its number reads back as `i+1` |
| Reports.ListEntry | main.py:196 | `result.get(key, [])` read as a list of strings: the default `[]` for a missing key, and `None` when the entry is not a list of strings |
| Reports.ViewResult | main.py:193-196 | a record prints only as an object whose answer is what `.get("answer", "")` gives and whose references are what `.get("references", [])` gives; the steps are read, with `.get("steps", [])`, only for the case report and are empty otherwise; every object of that shape prints |
| Reports.RaisingHasNoView | main.py:180-196 | a record whose references (or, for the case report, steps) raise has no view; an object has no view exactly when a field raises, the answer is not a string, or a list field is a string or an object |
| Reports.ListFieldCases | main.py:196 | a present list field reads as a list of strings exactly when it neither raises (`null`, a number, a boolean, a list holding a non-string) nor is a string or an object; a missing one reads as `[]` |
| Reports.ViewOfAnswer | utils.py:166-169 | each fixed answer/references record prints in every report with that answer, no steps and those references |
| Reports.SplitLine | main.py:186-197 | splitting a report at the newline ending a line splits that line and the rest independently |
| Reports.FixedLine | main.py:186-197 | a fixed label reads back as one line of its own |
| Reports.BasicReportLines | main.py:186-197 | for any texts, read line by line, the basic report has its title, then the lines of the date, a fixed type line, the lines of the domain, of the question, an empty line and the advice label, the lines of the answer, an empty line and the reference label, the lines of the reference block and a final empty line; a text over several lines takes that many lines |
| Reports.DocumentReportLines | main.py:263-273 | for any texts, read line by line, the document report has its title, then the lines of the date, of the file name (or `未知文件`), of the question, the result label, the lines of the answer, the reference label and the lines of the reference block, in order |
| Reports.CaseReportLines | main.py:327-341 | for any texts, read line by line, the case report has its title, then the lines of the date, the domain, the case description, the question, the analysis label and the lines of the answer, followed by the closing part of `Reports.CaseTailLines` |
| Reports.CaseTailLines | main.py:336-341 | the closing part of the case report is the step label, the lines of the step block, the reference label, the lines of the reference block and a final empty line |
| Reports.LinkPayload | main.py:91 | the payload read from a link holds no double quote |
| Reports.PayloadQuoteFree | main.py:90-91 | Base64 text never holds a double quote, so it cannot end the `href` attribute early |
| Reports.DownloadRoundTrip | main.py:88-92 | the link's payload is the Base64 of the text's UTF-8 bytes, and it decodes back to the text |
| Session.Fill | main.py:96-97 | a key is assigned only when absent |
| Session.Initialized | main.py:94-103 | the defaults appear under the missing keys, every present key is left untouched, and nothing else is added |
| Session.InitIdempotent | main.py:94-103 | initializing twice is the same as initializing once |
| Session.FreshSession | main.py:102-117 | a fresh session gets exactly the defaults, and its domain sits at position 0 of the selector |
| Session.Shown | main.py:177-196 | `result.get` at main.py:178 raises `AttributeError` exactly when the result is not an object; an object result raises `TypeError` exactly when its references (or, in the case tab, steps) are `null`, a number, a boolean or a list holding a non-string; any other run is shown with its report link |
| Session.Window | main.py:348 | at most five entries; entry `i` is the `i`-th newest |
| Session.WindowAfterAppend | main.py:348 | after an append, the window opens with the new entry, followed by the start of the previous window |
| Session.SessionState.InitSessionState | main.py:94-103 | the four conditional assignments leave `Initialized` of the old state |
| Session.SessionState.SelectDomain | main.py:114-121 | choosing a catalog domain stores it and changes nothing else |
| Session.SessionState.ChooseSample | main.py:126-128 | a sample-question button stores the question |
| Session.SessionState.ClearHistory | main.py:131-134 | the history and the results list become empty; nothing else changes |
| Session.SessionState.UploadDocument | main.py:216-225 | the document text is stored exactly when extraction yields non-empty text; otherwise the state is unchanged |
| Session.SessionState.Record | main.py:169-174 | one entry goes on the end of the history; earlier entries and all other keys are unchanged |
| Session.SessionState.ConsultBasic | main.py:160-198 | an empty question only warns; otherwise the question and session domain go to `legal_agent` as written and one entry is appended; a result that is not an object then fails at `result.get` with `AttributeError`; an object whose references cannot be displayed or joined fails with `TypeError`; otherwise the report link is built when the result can be printed |
| Session.SessionState.ConsultDocument | main.py:233-274 | no document or an empty question only warns, with the document check first; otherwise the document query goes to `legal_agent` as written and one entry with the file name (or `""`) is appended; a result that is not an object then fails at `result.get` with `AttributeError`; an object whose references cannot be displayed or joined fails with `TypeError`; otherwise the report link is built when the result can be printed |
| Session.SessionState.ConsultCase | main.py:292-342 | an empty description or question only warns, with the description check first; otherwise the case query goes to `legal_agent` as written and one entry with the description is appended; a result that is not an object then fails at `result.get` with `AttributeError`; an object whose steps or references cannot be displayed or joined fails with `TypeError`; otherwise the report link, with the steps, is built when the result can be printed |
| Session.NonObjectReplyFails | main.py:165-178 | as written, a configured key and a `[]` reply make `result.get` raise `AttributeError` after the entry is recorded |
| Session.NullReferencesFail | main.py:180-196 | a configured key and the reply `{"answer": "x", "references": null}` make the page raise `TypeError` after the entry is recorded, with the written and the corrected agent alike |
| Session.CorrectedGetSucceeds | main.py:178-196 | with the corrected agent `result.get` never raises; the page fails only with `TypeError`, exactly when the references or steps cannot be printed, and otherwise shows the run |

## Left out

- **Streamlit rendering.** Markdown, tabs, expanders, spinners, `st.rerun`, `st.stop`, `st.warning`/`st.error` display and the CSS block are UI. The warnings are modelled only as `Session.Outcome.Warned` messages.
- **Startup checks.** The API-key check at `main.py:14-28` and `app.py` (a key check, then `import main`) are startup glue.
- **Foreign code.** The chat-model network call, `json.loads` internals, PyPDF2 and python-docx parsing are parameters, as described above. Module import failure is the `Support` flags.
- **Numbers.** JSON numbers are integers only; floats are not modelled.
- **Catching errors.** The outer `except` of `legal_agent` (`utils.py:203-208`, the "系统错误" record) is not modelled. In the model nothing between it and the inner handlers can raise: credential lookup is total and the inner `try` covers the call. The `print` there is I/O.
- **The credentials error message.** The `st.error` in `get_api_credentials` is display only.
- **Session.SessionState.UploadDocument:** a parser that fails on one page fails the whole file (`None`), as in the source. The `st.error` text for parse errors is not modelled.
- Documents.FileType: `str.lower` is modelled for ASCII letters only (`Text.Lower`). Non-ASCII letters in an extension are left unchanged.
- Utf8.Decode: lone surrogates cannot occur, since Dafny characters are Unicode scalar values. Python strings can hold them, and `str.encode()` would then raise.
- Reports.ViewResult: it gives `None` when a field is present with another type, and the reports are then not built. Where the source raises `TypeError` (`Reports.DisplayRaises`), the page fails, as `Session.Shown` states. It does not model the shapes the source prints anyway: an answer that is not a string (the f-string prints its `str()`), and references (and, in the case report, steps) that are a string or an object (the loop iterates its characters or keys). The basic and document reports never read `steps`, so a malformed `steps` does not keep their link from being built.
- Session.SessionState.ConsultBasic: for an object result whose answer is not a string, or whose references are a string or an object, it gives `Consulted(run, None)`, where the source prints their `str()` or iterates them and builds a report.
- Session.SessionState.ConsultDocument: the same as `ConsultBasic`: for those shapes it gives `Consulted(run, None)` where the source builds a report.
- Session.SessionState.ConsultCase: the same as `ConsultBasic`, and also for steps that are a string or an object.
- Prompt.Format: it models plain-name fields only. Format specs (`{x:>5}`), conversions (`{x!r}`), attribute and index fields, and positional numbering are beyond plain names; `{}` is reported as an error.
- **Default parameter.** The default `legal_domain` of `legal_agent` is not used: every caller passes the session's domain.
- **`consultation_results`.** It is initialized and cleared but never appended to by the source. The model does the same.
- **Pre-filled question.** The first tab's text area pre-filled from `sample_question` is UI. The model only stores the question.
- **Empty text files.** In the source, `display_document_content` returns `""` for an empty text file, and `if doc_content:` at `main.py:220` treats that as a failure. The model keeps both behaviours: `ExtractText` gives `Some("")`, and `UploadDocument` does not store it.
- **Upload filter.** The upload widget's own type filtering is not modelled. The dispatcher is called with whatever type the name gives.
- **History display.** The history expanders (`main.py:346-365`) are rendering and are not modelled beyond `Session.Window`. A recorded result that is not an object would make `.get` raise there again on every later rerun.
- **Decoded replies.** The code returns the decoded value as it is (`utils.py:190`); missing `references`/`steps` are not filled in. The model follows the code, and the defaults appear only when a report reads the record (`Reports.ViewResult`).

## Findings

| source | as written | input that shows it | evidently intended | confidence | as-written member | corrected member |
|---|---|---|---|---|---|---|
| utils.py:189-190 | `legal_agent` returns whatever `json.loads` decodes. The page then calls `result.get("answer", "")` (`main.py:178`, and again in the history at `main.py:357`), after the entry has already been appended. | A key is configured and the model replies `[]` (or `null`, `42`, `"text"`). `legal_agent` returns the decoded non-object value, and `.get` raises `AttributeError`. | Any reply that is not a JSON object is handled like one that does not decode: the raw text with the reference "无法识别格式化参考". Every result is then a record the page can read. | not executed; high that `.get` on a list raises | Agent.NonObjectReply | Agent.LegalAgentChecked |

The three consultation methods of `Session.SessionState` call the agent as written, so their contracts include the failure (`Session.Outcome.Failed` with `AttributeError`). `Session.NonObjectReplyFails` shows the failure on the page. `Session.CorrectedGetSucceeds` proves that the corrected agent rules it out. The corrected agent still passes decoded objects through unchecked, so a `TypeError` from malformed references or steps remains possible (`Session.NullReferencesFail`).
