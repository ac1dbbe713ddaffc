/** `st.session_state` of one browser session and the page actions that
    change it: filling in the defaults, choosing a domain or a sample
    question, clearing the history, reading an upload, and the three
    consultation buttons, each of which appends one history entry. */
module Session {
  import opened Wrappers
  import opened JsonValues
  import Catalog
  import Credentials
  import Agent
  import Documents
  import Reports

  /** The session-state keys the page uses. */
  datatype Key = ChatHistory | DocContent | ConsultationResults | LegalDomain | SampleQuestion

  /** One row of `chat_history`: the tab it came from, the question, the
      file name (document tab only), the case description (case tab only),
      the result record and the timestamp. */
  datatype Entry = Entry(kind: string, query: string, document: Option<string>,
                         caseDetails: Option<string>, result: Json, timestamp: string)

  /** A session-state value, tagged with the kind of key it belongs to. */
  datatype Value =
    | Entries(entries: seq<Entry>)
    | Content(text: Option<string>)
    | Results(results: seq<Json>)
    | Domain(name: string)
    | Question(question: string)

  /** Each present key holds a value of its own kind. */
  predicate WellTyped(m: map<Key, Value>)
  {
    (ChatHistory in m ==> m[ChatHistory].Entries?)
    && (DocContent in m ==> m[DocContent].Content?)
    && (ConsultationResults in m ==> m[ConsultationResults].Results?)
    && (LegalDomain in m ==> m[LegalDomain].Domain?)
    && (SampleQuestion in m ==> m[SampleQuestion].Question?)
  }

  /** What `init_session_state` fills in for each of its keys. */
  const Defaults: map<Key, Value> :=
    map[ChatHistory := Entries([]), DocContent := Content(None),
        ConsultationResults := Results([]), LegalDomain := Domain(Catalog.DefaultDomain)]

  /** `m` with `k` bound to `v` unless `k` is already present. */
  function Fill(m: map<Key, Value>, k: Key, v: Value): (r: map<Key, Value>)
    ensures r.Keys == m.Keys + {k}
    ensures k in m ==> r == m
    ensures k !in m ==> r[k] == v && forall j :: j in m ==> r[j] == m[j]
  {
    if k in m then m else m[k := v]
  }

  /** The state after `init_session_state`: the defaults under the keys that
      were missing, everything else as it was. */
  function Initialized(m: map<Key, Value>): (r: map<Key, Value>)
    ensures r.Keys == m.Keys + Defaults.Keys
    ensures forall k :: k in m ==> r[k] == m[k]
    ensures forall k :: k in Defaults && k !in m ==> r[k] == Defaults[k]
  {
    var m1 := Fill(m, ChatHistory, Entries([]));
    var m2 := Fill(m1, DocContent, Content(None));
    var m3 := Fill(m2, ConsultationResults, Results([]));
    var r := Fill(m3, LegalDomain, Domain(Catalog.DefaultDomain));
    FillsDefaults(m, m1, m2, m3, r);
    r
  }

  lemma {:induction false} FillsDefaults(m: map<Key, Value>, m1: map<Key, Value>, m2: map<Key, Value>,
                                         m3: map<Key, Value>, r: map<Key, Value>)
    requires m1 == Fill(m, ChatHistory, Entries([])) && m2 == Fill(m1, DocContent, Content(None))
    requires m3 == Fill(m2, ConsultationResults, Results([]))
    requires r == Fill(m3, LegalDomain, Domain(Catalog.DefaultDomain))
    ensures r.Keys == m.Keys + Defaults.Keys
    ensures forall k :: k in m ==> r[k] == m[k]
    ensures forall k :: k in Defaults && k !in m ==> r[k] == Defaults[k]
  {
    DefaultKeys();
    forall k | k in Defaults && k !in m ensures r[k] == Defaults[k] {
      match k
      case ChatHistory =>
      case DocContent =>
      case ConsultationResults =>
      case LegalDomain =>
    }
  }

  lemma {:induction false} DefaultKeys()
    ensures Defaults.Keys == {ChatHistory, DocContent, ConsultationResults, LegalDomain}
  {
  }

  /** Filling in the defaults keeps each key to its kind of value and
      leaves every default key present. */
  lemma {:induction false} InitializedValid(m: map<Key, Value>)
    requires WellTyped(m)
    ensures WellTyped(Initialized(m)) && Defaults.Keys <= Initialized(m).Keys
  {
  }

  /** Filling in the defaults a second time changes nothing. */
  lemma {:induction false} InitIdempotent(m: map<Key, Value>)
    ensures Initialized(Initialized(m)) == Initialized(m)
  {
  }

  /** A fresh session starts with an empty history, no document, no
      results and the catalog's first domain, which the domain selector
      finds at position 0. */
  lemma {:induction false} FreshSession()
    ensures Initialized(map[]) == Defaults
    ensures Catalog.IndexOf(Catalog.GetLegalDomains(), Initialized(map[])[LegalDomain].name) == Some(0)
  {
    var start := Initialized(map[]);
    assert start.Keys == Defaults.Keys;
    assert start[LegalDomain] == Domain(Catalog.DefaultDomain);
    Catalog.DomainIndex(0);
  }

  /** `reversed(history[-5:])`: at most the five newest entries, newest first. */
  function Window(history: seq<Entry>): (r: seq<Entry>)
    ensures |r| == if |history| < 5 then |history| else 5
    ensures forall i :: 0 <= i < |r| ==> r[i] == history[|history| - 1 - i]
  {
    var recent := if |history| < 5 then history else history[|history| - 5..];
    seq(|recent|, i requires 0 <= i < |recent| => recent[|recent| - 1 - i])
  }

  /** After a consultation the window opens with the entry just added, and
      keeps the rest of the previous window after it. */
  lemma {:induction false} WindowAfterAppend(history: seq<Entry>, e: Entry)
    ensures Window(history + [e])[0] == e
    ensures Window(history + [e])[1..] == Window(history)[..|Window(history + [e])| - 1]
  {
    var h := history + [e];
    var w, v := Window(h), Window(history);
    var n := |w| - 1;
    assert n <= |v|;
    assert w[0] == h[|h| - 1];
    var a, b := w[1..], v[..n];
    assert |a| == n == |b|;
    forall i | 0 <= i < n ensures a[i] == b[i] {
      NewestShift(history, e, i);
    }
  }

  lemma {:induction false} NewestShift(history: seq<Entry>, e: Entry, i: nat)
    requires i < |Window(history + [e])| - 1
    ensures Window(history + [e])[i + 1] == Window(history)[i]
  {
    var h := history + [e];
    var w, v := Window(h), Window(history);
    var k := |history| - 1 - i;
    assert i < |v|;
    assert w[i + 1] == h[|h| - 1 - (i + 1)];
    assert |h| - 1 - (i + 1) == k;
    assert h[k] == history[k];
    assert v[i] == history[k];
  }

  const BasicKind: string := "基本法律信息"
  const DocumentKind: string := "法律文件解读"
  const CaseKind: string := "案件研究与策略"

  const AskQuestion: string := "请输入您的咨询问题"
  const UploadFirst: string := "请先上传法律文件"
  const AskDocumentQuestion: string := "请输入您对文件的具体问题"
  const DescribeCase: string := "请描述案件的基本情况"
  const AskAdvice: string := "请说明您希望获得的建议"

  /** What a consultation button leads to: a warning and nothing else; the
      agent's run and, when the result can be printed, the download link of
      its report; or the exception the page raises after the entry has been
      recorded: `AttributeError` from `result.get` on a result that is not an
      object, or `TypeError` from displaying or reporting its references or
      steps. */
  datatype Outcome =
    | Warned(message: string)
    | Consulted(run: Agent.AgentRun, link: Option<string>)
    | Failed(run: Agent.AgentRun, error: PyError)

  /** What the page makes of a recorded run: `result.get("answer", "")`
      raises on a result that is not an object; an object whose references
      (or, in the case tab, steps) cannot be printed raises `TypeError` while
      they are displayed or joined into the report; any other run is shown
      with the link of `report`, which is built when the result can be
      printed. */
  function Shown(run: Agent.AgentRun, report: Option<string>, withSteps: bool): (r: Outcome)
    ensures !r.Warned? && r.run == run
    ensures r == Failed(run, AttributeError) <==> !run.result.Obj?
    ensures r == Failed(run, TypeError) <==> run.result.Obj? && Reports.DisplayRaises(run.result, withSteps)
    ensures r.Consulted? ==> r.link == report
  {
    if DictGet(run.result, "answer", Str("")).Err? then Failed(run, AttributeError)
    else if Reports.DisplayRaises(run.result, withSteps) then Failed(run, TypeError)
    else Consulted(run, report)
  }

  /** As written, a key and a reply of `[]` make the page fail at
      `result.get` once the entry is recorded. */
  lemma {:induction false} NonObjectReplyFails(report: Option<string>)
    ensures var run := Agent.LegalAgent("q", BasicKind, Catalog.DefaultDomain,
                                        Credentials.Sources(Some("k"), false, None, None),
                                        _ => Agent.Replied("[]"), _ => Agent.Parsed(Arr([])));
            Shown(run, report, false) == Failed(run, AttributeError)
  {
    Agent.NonObjectReply();
  }

  /** A key and the reply `{"answer": "x", "references": null}` make the
      page fail with `TypeError` once the entry is recorded, with the written
      agent and the corrected one alike: `for ref in None` cannot iterate. */
  lemma {:induction false} NullReferencesFail(report: Option<string>, withSteps: bool)
    ensures var reply := Obj(map["answer" := Str("x"), "references" := Null]);
            var src := Credentials.Sources(Some("k"), false, None, None);
            var run := Agent.LegalAgent("q", BasicKind, Catalog.DefaultDomain, src,
                                        _ => Agent.Replied("r"), _ => Agent.Parsed(reply));
            var checked := Agent.LegalAgentChecked("q", BasicKind, Catalog.DefaultDomain, src,
                                                   _ => Agent.Replied("r"), _ => Agent.Parsed(reply));
            && Shown(run, report, withSteps) == Failed(run, TypeError)
            && Shown(checked, report, withSteps) == Failed(checked, TypeError)
  {
    var reply := Obj(map["answer" := Str("x"), "references" := Null]);
    assert "references" in reply.fields && reply.fields["references"] == Null;
    var run := Agent.LegalAgent("q", BasicKind, Catalog.DefaultDomain, Credentials.Sources(Some("k"), false, None, None),
                                _ => Agent.Replied("r"), _ => Agent.Parsed(reply));
    assert run.result == reply;
  }

  /** With the corrected agent `result.get` never raises: the page fails
      only with `TypeError`, exactly when the references or steps of the
      object it returns cannot be printed, and otherwise shows the run. */
  lemma {:induction false} CorrectedGetSucceeds(query: string, consultType: string, legalDomain: string,
                                               src: Credentials.Sources, llm: Agent.Request -> Agent.CallOutcome,
                                               loads: string -> Agent.Decoded, report: Option<string>,
                                               withSteps: bool)
    ensures var run := Agent.LegalAgentChecked(query, consultType, legalDomain, src, llm, loads);
            && run.result.Obj?
            && Shown(run, report, withSteps) != Failed(run, AttributeError)
            && (Shown(run, report, withSteps) == Consulted(run, report) <==> !Reports.DisplayRaises(run.result, withSteps))
  {
    Agent.CheckedResultReadable(query, consultType, legalDomain, src, llm, loads);
  }

  /** The state that persists across the reruns of one browser session. */
  class SessionState {
    var store: map<Key, Value>

    /** The state once the defaults are in place. */
    ghost predicate Valid()
      reads this
    {
      WellTyped(store) && Defaults.Keys <= store.Keys
    }

    function History(): seq<Entry>
      reads this
      requires Valid()
    {
      store[ChatHistory].entries
    }

    function CurrentDomain(): string
      reads this
      requires Valid()
    {
      store[LegalDomain].name
    }

    function DocumentText(): Option<string>
      reads this
      requires Valid()
    {
      store[DocContent].text
    }

    /** A session whose state carries over `initial` from earlier reruns. */
    constructor (initial: map<Key, Value>)
      ensures store == initial
    {
      store := initial;
    }

    /** `init_session_state()`: assigns each of its keys only when absent. */
    method InitSessionState()
      requires WellTyped(store)
      modifies this
      ensures store == Initialized(old(store))
      ensures Valid()
    {
      if ChatHistory !in store {
        store := store[ChatHistory := Entries([])];
      }
      if DocContent !in store {
        store := store[DocContent := Content(None)];
      }
      if ConsultationResults !in store {
        store := store[ConsultationResults := Results([])];
      }
      if LegalDomain !in store {
        store := store[LegalDomain := Domain(Catalog.DefaultDomain)];
      }
      InitializedValid(old(store));
    }

    /** The domain selector: the chosen catalog domain becomes the session's. */
    method SelectDomain(selected: string)
      requires Valid() && selected in Catalog.GetLegalDomains()
      modifies this
      ensures Valid()
      ensures store == old(store)[LegalDomain := Domain(selected)]
    {
      if selected != CurrentDomain() {
        store := store[LegalDomain := Domain(selected)];
      }
    }

    /** A sample-question button: the question pre-fills the first tab. */
    method ChooseSample(question: string)
      requires Valid()
      modifies this
      ensures Valid()
      ensures store == old(store)[SampleQuestion := Question(question)]
    {
      store := store[SampleQuestion := Question(question)];
    }

    /** The clear button: both lists become empty, nothing else changes. */
    method ClearHistory()
      requires Valid()
      modifies this
      ensures Valid()
      ensures store == old(store)[ChatHistory := Entries([])][ConsultationResults := Results([])]
      ensures History() == []
    {
      store := store[ChatHistory := Entries([])];
      store := store[ConsultationResults := Results([])];
    }

    /** An upload is read by its type from the name; non-empty text is kept
      as the session's document, anything else leaves the state alone. */
    method UploadDocument(file: Documents.Upload, support: Documents.Support) returns (kept: bool)
      requires Valid()
      modifies this
      ensures Valid()
      ensures var text := Documents.ExtractText(file, Documents.FileType(file.name), support);
              kept <==> text.Some? && text.value != ""
      ensures kept ==> store == old(store)[DocContent :=
                Content(Documents.ExtractText(file, Documents.FileType(file.name), support))]
      ensures !kept ==> store == old(store)
    {
      var fileType := Documents.FileType(file.name);
      var content := Documents.DisplayDocumentContent(file, fileType, support);
      kept := content.Some? && content.value != "";
      if kept {
        store := store[DocContent := Content(content)];
      }
    }

    /** Appends one entry to the history, leaving everything else as it was. */
    method Record(e: Entry)
      requires Valid()
      modifies this
      ensures Valid()
      ensures store == old(store)[ChatHistory := Entries(old(History()) + [e])]
      ensures History() == old(History()) + [e]
    {
      store := store[ChatHistory := Entries(History() + [e])];
    }

    /** The button of the basic-information tab. */
    method ConsultBasic(query: string, timestamp: string, src: Credentials.Sources,
                        llm: Agent.Request -> Agent.CallOutcome, loads: string -> Agent.Decoded)
      returns (outcome: Outcome)
      requires Valid()
      modifies this
      ensures Valid()
      ensures query == "" ==> outcome == Warned(AskQuestion) && store == old(store)
      ensures query != "" ==>
                var run := Agent.LegalAgent(query, BasicKind, old(CurrentDomain()), src, llm, loads);
                var view := Reports.ViewResult(run.result, false);
                && store == old(store)[ChatHistory := Entries(old(History())
                              + [Entry(BasicKind, query, None, None, run.result, timestamp)])]
                && (!run.result.Obj? ==> outcome == Failed(run, AttributeError))
                && (run.result.Obj? && Reports.DisplayRaises(run.result, false) ==> outcome == Failed(run, TypeError))
                && (run.result.Obj? && !Reports.DisplayRaises(run.result, false) ==> outcome == Consulted(run, if view.None? then None else Some(
                     Reports.GetDownloadLink(Reports.BasicReport(timestamp, old(CurrentDomain()), query, view.value),
                                             "法律咨询报告.txt"))))
    {
      if query == "" {
        return Warned(AskQuestion);
      }
      var domain := CurrentDomain();
      var run := Agent.LegalAgent(query, BasicKind, domain, src, llm, loads);
      Record(Entry(BasicKind, query, None, None, run.result, timestamp));
      var view := Reports.ViewResult(run.result, false);
      var link := if view.None? then None
                  else Some(Reports.GetDownloadLink(Reports.BasicReport(timestamp, domain, query, view.value),
                                                    "法律咨询报告.txt"));
      outcome := Shown(run, link, false);
    }

    /** The button of the document tab; `fileName` is the name of the file
      still in the uploader, if any. */
    method ConsultDocument(question: string, fileName: Option<string>, timestamp: string,
                           src: Credentials.Sources, llm: Agent.Request -> Agent.CallOutcome,
                           loads: string -> Agent.Decoded)
      returns (outcome: Outcome)
      requires Valid()
      modifies this
      ensures Valid()
      ensures old(DocumentText()) in {None, Some("")} ==> outcome == Warned(UploadFirst) && store == old(store)
      ensures old(DocumentText()) !in {None, Some("")} && question == "" ==>
                outcome == Warned(AskDocumentQuestion) && store == old(store)
      ensures old(DocumentText()) !in {None, Some("")} && question != "" ==>
                var run := Agent.LegalAgent(Reports.DocumentQuery(old(DocumentText()).value, question),
                                            DocumentKind, old(CurrentDomain()), src, llm, loads);
                var view := Reports.ViewResult(run.result, false);
                && store == old(store)[ChatHistory := Entries(old(History())
                     + [Entry(DocumentKind, question, Some(if fileName.Some? then fileName.value else ""),
                              None, run.result, timestamp)])]
                && (!run.result.Obj? ==> outcome == Failed(run, AttributeError))
                && (run.result.Obj? && Reports.DisplayRaises(run.result, false) ==> outcome == Failed(run, TypeError))
                && (run.result.Obj? && !Reports.DisplayRaises(run.result, false) ==> outcome == Consulted(run, if view.None? then None else Some(
                     Reports.GetDownloadLink(Reports.DocumentReport(timestamp, fileName, question, view.value),
                                             "法律文件解读报告.txt"))))
    {
      var content := DocumentText();
      if content.None? || content.value == "" {
        return Warned(UploadFirst);
      }
      if question == "" {
        return Warned(AskDocumentQuestion);
      }
      var fullQuery := Reports.DocumentQuery(content.value, question);
      var run := Agent.LegalAgent(fullQuery, DocumentKind, CurrentDomain(), src, llm, loads);
      Record(Entry(DocumentKind, question, Some(if fileName.Some? then fileName.value else ""),
                   None, run.result, timestamp));
      var view := Reports.ViewResult(run.result, false);
      var link := if view.None? then None
                  else Some(Reports.GetDownloadLink(Reports.DocumentReport(timestamp, fileName, question, view.value),
                                                    "法律文件解读报告.txt"));
      outcome := Shown(run, link, false);
    }

    /** The button of the case tab. */
    method ConsultCase(details: string, question: string, timestamp: string,
                       src: Credentials.Sources, llm: Agent.Request -> Agent.CallOutcome,
                       loads: string -> Agent.Decoded)
      returns (outcome: Outcome)
      requires Valid()
      modifies this
      ensures Valid()
      ensures details == "" ==> outcome == Warned(DescribeCase) && store == old(store)
      ensures details != "" && question == "" ==> outcome == Warned(AskAdvice) && store == old(store)
      ensures details != "" && question != "" ==>
                var run := Agent.LegalAgent(Reports.CaseQuery(details, question), CaseKind,
                                            old(CurrentDomain()), src, llm, loads);
                var view := Reports.ViewResult(run.result, true);
                && store == old(store)[ChatHistory := Entries(old(History())
                     + [Entry(CaseKind, question, None, Some(details), run.result, timestamp)])]
                && (!run.result.Obj? ==> outcome == Failed(run, AttributeError))
                && (run.result.Obj? && Reports.DisplayRaises(run.result, true) ==> outcome == Failed(run, TypeError))
                && (run.result.Obj? && !Reports.DisplayRaises(run.result, true) ==> outcome == Consulted(run, if view.None? then None else Some(
                     Reports.GetDownloadLink(Reports.CaseReport(timestamp, old(CurrentDomain()), details, question,
                                                                view.value), "案件研究报告.txt"))))
    {
      if details == "" {
        return Warned(DescribeCase);
      }
      if question == "" {
        return Warned(AskAdvice);
      }
      var domain := CurrentDomain();
      var run := Agent.LegalAgent(Reports.CaseQuery(details, question), CaseKind, domain, src, llm, loads);
      Record(Entry(CaseKind, question, None, Some(details), run.result, timestamp));
      var view := Reports.ViewResult(run.result, true);
      var link := if view.None? then None
                  else Some(Reports.GetDownloadLink(Reports.CaseReport(timestamp, domain, details, question, view.value),
                                                    "案件研究报告.txt"));
      outcome := Shown(run, link, true);
    }
  }
}
