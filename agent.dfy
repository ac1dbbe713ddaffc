/** `legal_agent`: one consultation, from the resolved credentials to the
    result record. The chat model and `json.loads` are foreign code and are
    parameters: `llm` says what the call does with a request, `loads`
    what the decoder makes of a reply. */
module Agent {
  import opened Wrappers
  import opened JsonValues
  import Credentials
  import Prompt

  /** The fixed model settings of the `ChatOpenAI` client. */
  const ModelName: string := "gpt-3.5-turbo"
  const Temperature: real := 0.2
  const MaxTokens: nat := 4096

  /** Everything the client is handed: credentials, settings and the
      formatted prompt. */
  datatype Request = Request(apiKey: string, apiBase: string, model: string,
                             temperature: real, maxTokens: nat, prompt: string)

  /** What the call does: it returns the reply text or raises an exception
      whose `str` is `error`. */
  datatype CallOutcome = Replied(text: string) | Raised(error: string)

  /** What `json.loads` makes of a reply: a value, or a `JSONDecodeError`. */
  datatype Decoded = Parsed(value: Json) | NotJson

  /** The returned record, and the request that was sent, if any. */
  datatype AgentRun = AgentRun(result: Json, sent: Option<Request>)

  const MissingKeyAnswer: string := "错误：未找到API密钥。请在Streamlit Secrets中设置API_KEY。"
  const MissingKeyHint: string := "请在Streamlit设置中添加API_KEY"
  const ConnectFailure: string := "抱歉，无法连接到AI服务："
  const ConnectHint: string := "请检查您的API密钥和网络连接"
  const UnformattedHint: string := "无法识别格式化参考"

  /** `{"answer": answer, "references": references}`. */
  function Answer(answer: string, references: seq<string>): (r: Json)
    ensures r.Obj? && r.fields.Keys == {"answer", "references"}
    ensures r.fields["answer"] == Str(answer)
    ensures AsStrings(r.fields["references"]) == Some(references)
  {
    AsStringsOfStrings(references);
    Obj(map["answer" := Str(answer), "references" := Strings(references)])
  }

  /** The request built from a usable key. */
  function RequestFor(creds: Credentials.ApiCredentials, query: string, consultType: string,
                      legalDomain: string): (r: Request)
    requires Credentials.HasKey(creds.apiKey)
    ensures r.apiKey == creds.apiKey.value && r.apiBase == creds.apiBase
    ensures r.model == ModelName && r.temperature == Temperature && r.maxTokens == MaxTokens
    ensures Prompt.Format(Prompt.PromptTemplate, Prompt.Arguments(query, consultType, legalDomain)) == Ok(r.prompt)
  {
    Request(creds.apiKey.value, creds.apiBase, ModelName, Temperature, MaxTokens,
            Prompt.ComposePrompt(query, consultType, legalDomain))
  }

  /** The record for a reply: the decoded value as it is, or the raw text
      with a fixed reference when it does not decode. */
  function Interpret(text: string, decoded: Decoded): (r: Json)
    ensures decoded.Parsed? ==> r == decoded.value
    ensures decoded.NotJson? ==>
              && DictGet(r, "answer", Str("")) == Ok(Str(text))
              && DictGet(r, "references", Arr([])).Ok?
              && AsStrings(DictGet(r, "references", Arr([])).value) == Some([UnformattedHint])
              && "steps" !in r.fields
  {
    match decoded
    case Parsed(v) => v
    case NotJson => Answer(text, [UnformattedHint])
  }

  /** `legal_agent(query, consult_type, legal_domain)` as written. */
  function LegalAgent(query: string, consultType: string, legalDomain: string,
                      src: Credentials.Sources, llm: Request -> CallOutcome,
                      loads: string -> Decoded): (r: AgentRun)
    ensures r.sent.Some? <==> Credentials.HasKey(Credentials.GetApiCredentials(src).apiKey)
    ensures r.sent.None? ==> r.result == Answer(MissingKeyAnswer, [MissingKeyHint])
    ensures r.sent.Some? ==>
              r.sent.value == RequestFor(Credentials.GetApiCredentials(src), query, consultType, legalDomain)
    ensures r.sent.Some? && llm(r.sent.value).Raised? ==>
              r.result == Answer(ConnectFailure + llm(r.sent.value).error, [ConnectHint])
    ensures r.sent.Some? && llm(r.sent.value).Replied? ==>
              r.result == Interpret(llm(r.sent.value).text, loads(llm(r.sent.value).text))
  {
    var creds := Credentials.GetApiCredentials(src);
    if !Credentials.HasKey(creds.apiKey) then
      AgentRun(Answer(MissingKeyAnswer, [MissingKeyHint]), None)
    else
      var request := RequestFor(creds, query, consultType, legalDomain);
      match llm(request)
      case Raised(e) => AgentRun(Answer(ConnectFailure + e, [ConnectHint]), Some(request))
      case Replied(text) => AgentRun(Interpret(text, loads(text)), Some(request))
  }

  /** A reply decodes to a usable record only when it is a JSON object. */
  function InterpretChecked(text: string, decoded: Decoded): (r: Json)
    ensures r.Obj?
    ensures decoded.Parsed? && decoded.value.Obj? ==> r == decoded.value
    ensures !(decoded.Parsed? && decoded.value.Obj?) ==> r == Answer(text, [UnformattedHint])
  {
    if decoded.Parsed? && decoded.value.Obj? then decoded.value
    else Answer(text, [UnformattedHint])
  }

  /** `legal_agent` with a reply that decodes to something other than an
      object treated like one that does not decode. */
  function LegalAgentChecked(query: string, consultType: string, legalDomain: string,
                             src: Credentials.Sources, llm: Request -> CallOutcome,
                             loads: string -> Decoded): (r: AgentRun)
    ensures r.result.Obj?
    ensures r.sent == LegalAgent(query, consultType, legalDomain, src, llm, loads).sent
    ensures LegalAgent(query, consultType, legalDomain, src, llm, loads).result.Obj? ==>
              r == LegalAgent(query, consultType, legalDomain, src, llm, loads)
  {
    var creds := Credentials.GetApiCredentials(src);
    if !Credentials.HasKey(creds.apiKey) then
      AgentRun(Answer(MissingKeyAnswer, [MissingKeyHint]), None)
    else
      var request := RequestFor(creds, query, consultType, legalDomain);
      match llm(request)
      case Raised(e) => AgentRun(Answer(ConnectFailure + e, [ConnectHint]), Some(request))
      case Replied(text) => AgentRun(InterpretChecked(text, loads(text)), Some(request))
  }

  /** As written, a reply such as `[]` decodes and is returned unchanged;
      the page then calls `.get` on a list and raises. */
  lemma NonObjectReply()
    ensures var run := LegalAgent("q", "基本法律信息", "劳动法",
                                  Credentials.Sources(Some("k"), false, None, None),
                                  _ => Replied("[]"), _ => Parsed(Arr([])));
            run.result == Arr([]) && DictGet(run.result, "answer", Str("")) == Err(AttributeError)
  {
  }

  /** Every record the corrected agent returns has an answer the page can
      read with `.get`. */
  lemma {:induction false} CheckedResultReadable(query: string, consultType: string, legalDomain: string,
                             src: Credentials.Sources, llm: Request -> CallOutcome,
                             loads: string -> Decoded)
    ensures DictGet(LegalAgentChecked(query, consultType, legalDomain, src, llm, loads).result,
                    "answer", Str("")).Ok?
  {
  }
}
