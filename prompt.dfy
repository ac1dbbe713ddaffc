/** The prompt sent to the model: `PROMPT_TEMPLATE` and the `str.format`
    substitution that LangChain's f-string `PromptTemplate` applies to it.
    The formatter is modelled for templates whose replacement fields are
    plain names: `{name}` is replaced by the value bound to `name`, `{{` and
    `}}` stand for literal braces, and everything else is copied. */
module Prompt {
  import opened Wrappers

  /** The ways `str.format` rejects a template or its arguments. */
  datatype FormatError =
    | SingleCloseBrace       // a `}` that is neither doubled nor closes a field
    | UnclosedField          // a `{` with no `}` after it
    | PositionalField        // `{}`: auto-numbered, but only keywords are given
    | UnexpectedOpenBrace    // a `{` inside a field name
    | MissingKey(name: string)

  predicate BraceFree(s: string) { '{' !in s && '}' !in s }

  /** The first `}` of `t` at or after position `i`. */
  function CloseFrom(t: string, i: nat): (r: Option<nat>)
    requires i <= |t|
    ensures r.Some? ==> i <= r.value < |t| && t[r.value] == '}'
    ensures r.Some? ==> forall j :: i <= j < r.value ==> t[j] != '}'
    ensures r.None? ==> forall j :: i <= j < |t| ==> t[j] != '}'
    decreases |t| - i
  {
    if i == |t| then None else if t[i] == '}' then Some(i) else CloseFrom(t, i + 1)
  }

  /** Puts `s` in front of a successful output and passes an error on. */
  function Emit(s: string, r: Result<string, FormatError>): Result<string, FormatError>
  {
    match r
    case Ok(v) => Ok(s + v)
    case Err(e) => Err(e)
  }

  /** One step of `str.format`'s scan at the start of `t`: the text it
      emits and how many characters of the template it consumes. */
  function Next(t: string, vars: map<string, string>): (r: Result<(string, nat), FormatError>)
    requires t != []
    ensures r.Ok? ==> 1 <= r.value.1 <= |t|
  {
    if t[0] == '{' then
      if |t| > 1 && t[1] == '{' then Ok(("{", 2))
      else match CloseFrom(t, 1)
        case None => Err(UnclosedField)
        case Some(k) =>
          var name := t[1..k];
          if name == "" then Err(PositionalField)
          else if '{' in name then Err(UnexpectedOpenBrace)
          else if name !in vars then Err(MissingKey(name))
          else Ok((vars[name], k + 1))
    else if t[0] == '}' then
      if |t| > 1 && t[1] == '}' then Ok(("}", 2))
      else Err(SingleCloseBrace)
    else Ok(([t[0]], 1))
  }

  /** `template.format(**vars)` for templates whose fields are plain names. */
  function Format(t: string, vars: map<string, string>): Result<string, FormatError>
    decreases |t|
  {
    if t == [] then Ok("")
    else match Next(t, vars)
      case Err(e) => Err(e)
      case Ok((out, n)) => Emit(out, Format(t[n..], vars))
  }

  /** The template text that stands for the literal character `c`. */
  function EscapeChar(c: char): string
  {
    if c == '{' then "{{" else if c == '}' then "}}" else [c]
  }

  /** The template text that stands for the literal text `s`: every brace
      doubled. */
  function Escape(s: string): string
  {
    if s == [] then "" else EscapeChar(s[0]) + Escape(s[1..])
  }

  /** The replacement field `{name}`. */
  function Field(name: string): string
  {
    "{" + name + "}"
  }

  lemma {:induction false} EmitEmit(a: string, b: string, r: Result<string, FormatError>)
    ensures Emit(a, Emit(b, r)) == Emit(a + b, r)
  {
    if r.Ok? {
      assert a + (b + r.value) == a + b + r.value;
    }
  }

  lemma {:induction false} EmitNothing(r: Result<string, FormatError>)
    ensures Emit("", r) == r
  {
    if r.Ok? {
      assert "" + r.value == r.value;
    }
  }

  /** The search stops at the first closing brace. */
  lemma {:induction false} CloseFromFinds(t: string, i: nat, k: nat)
    requires i <= k < |t| && t[k] == '}'
    requires forall j :: i <= j < k ==> t[j] != '}'
    ensures CloseFrom(t, i) == Some(k)
    decreases k - i
  {
    if i < k {
      CloseFromFinds(t, i + 1, k);
    }
  }

  /** Text without braces is its own escape. */
  lemma {:induction false} EscapePlain(s: string)
    requires BraceFree(s)
    ensures Escape(s) == s
  {
    if s != [] {
      EscapePlain(s[1..]);
      assert [s[0]] + s[1..] == s;
    }
  }

  /** The scan is one step followed by the scan of what the step leaves. */
  lemma {:induction false} FormatNext(t: string, vars: map<string, string>, out: string, n: nat)
    requires t != [] && Next(t, vars) == Ok((out, n))
    ensures Format(t, vars) == Emit(out, Format(t[n..], vars))
  {
  }

  /** The first step over an escaped character emits that character and
      consumes exactly its escape. */
  lemma {:induction false} NextEscaped(c: char, u: string, vars: map<string, string>)
    ensures Next(EscapeChar(c) + u, vars) == Ok(([c], |EscapeChar(c)|))
  {
    var t := EscapeChar(c) + u;
    if c == '{' || c == '}' {
      assert t[0] == c && t[1] == c;
    } else {
      assert t[0] == c;
    }
  }

  /** The scan steps over one escaped character. */
  lemma {:induction false} FormatEscapedChar(c: char, u: string, vars: map<string, string>)
    ensures Format(EscapeChar(c) + u, vars) == Emit([c], Format(u, vars))
  {
    var t := EscapeChar(c) + u;
    NextEscaped(c, u, vars);
    FormatNext(t, vars, [c], |EscapeChar(c)|);
    assert t[|EscapeChar(c)|..] == u;
  }

  /** The formatter undoes `Escape`: each doubled brace becomes one literal
      brace and no other character changes. */
  lemma {:induction false} FormatEscaped(s: string, rest: string, vars: map<string, string>)
    ensures Format(Escape(s) + rest, vars) == Emit(s, Format(rest, vars))
  {
    if s == [] {
      assert Escape(s) + rest == rest;
      EmitNothing(Format(rest, vars));
    } else {
      var u := Escape(s[1..]) + rest;
      assert Escape(s) + rest == EscapeChar(s[0]) + u;
      FormatEscapedChar(s[0], u, vars);
      FormatEscaped(s[1..], rest, vars);
      EmitEmit([s[0]], s[1..], Format(rest, vars));
      assert [s[0]] + s[1..] == s;
    }
  }

  /** Any text can be put into a template verbatim by escaping it. */
  lemma {:induction false} EscapeRoundTrip(s: string, vars: map<string, string>)
    ensures Format(Escape(s), vars) == Ok(s)
  {
    FormatEscaped(s, "", vars);
    assert Escape(s) + "" == Escape(s);
    assert s + "" == s;
  }

  /** A field `{name}` is replaced by the value bound to `name`. */
  lemma {:induction false} FormatField(name: string, rest: string, vars: map<string, string>)
    requires name != "" && BraceFree(name) && name in vars
    ensures Format(Field(name) + rest, vars) == Emit(vars[name], Format(rest, vars))
  {
    var t := Field(name) + rest;
    assert t[1] != '{' by {
      assert t[1] == name[0];
    }
    assert forall j :: 1 <= j < |name| + 1 ==> t[j] == name[j - 1];
    CloseFromFinds(t, 1, |name| + 1);
    assert t[1..|name| + 1] == name;
    assert t[|name| + 2..] == rest;
  }

  // The text of PROMPT_TEMPLATE between its three fields, as the model reads it.

  const Intro: string :=
    "你是一位专业的法律顾问，请根据用户的问题提供准确、客观的法律信息和建议。\n\n"
    + "请注意，你的回答应当：\n"
    + "1. 基于中国现行法律法规，避免给出可能误导用户的个人见解\n"
    + "2. 明确指出法律的局限性和不确定性\n"
    + "3. 提醒用户在重要法律事务上咨询专业律师\n"
    + "4. 提供清晰、结构化的回答\n\n"
    + "当前咨询类型: "
  const DomainLine: string := "\n法律领域: "
  /** The three reply shapes the model is asked for, in single braces, and
      the label in front of the question. */
  const ReplyFormats: string :=
    "\n\n请按照以下JSON格式回应:\n\n"
    + "对于基本法律信息:\n"
    + "{\"answer\": \"详细的法律解释和信息\", \"references\": [\"相关法律条款1\", \"相关法律条款2\"]}\n\n"
    + "对于法律文件解读:\n"
    + "{\"answer\": \"对文件的解释和分析\", \"references\": [\"相关法律依据1\", \"相关法律依据2\"]}\n\n"
    + "对于案件研究与策略:\n"
    + "{\"answer\": \"对案件的分析\", \"steps\": [\"建议步骤1\", \"建议步骤2\"], "
    + "\"references\": [\"相关法律案例1\", \"相关法律案例2\"]}\n\n"
    + "用户问题: "

  /** `PROMPT_TEMPLATE`: the text above with every literal brace doubled
      (which touches only the braces of the three reply shapes) and the
      three fields between the pieces. */
  const PromptTemplate: string :=
    Escape(Intro) + Field("consult_type") + Escape(DomainLine) + Field("legal_domain")
    + Escape(ReplyFormats) + Field("query") + Escape("\n")

  /** The keyword arguments `chain.run` passes to the template. */
  function Arguments(query: string, consultType: string, legalDomain: string): map<string, string>
  {
    map["query" := query, "consult_type" := consultType, "legal_domain" := legalDomain]
  }

  /** The prompt `legal_agent` sends: the template formatted with the three
      inputs. Each input appears verbatim at its field, each doubled brace
      of the template as one brace, and the rest of the template unchanged. */
  function ComposePrompt(query: string, consultType: string, legalDomain: string): (r: string)
    ensures Format(PromptTemplate, Arguments(query, consultType, legalDomain)) == Ok(r)
    ensures r == Intro + consultType + DomainLine + legalDomain + ReplyFormats + query + "\n"
  {
    TemplateFormats(query, consultType, legalDomain);
    Format(PromptTemplate, Arguments(query, consultType, legalDomain)).value
  }

  /** Formatting the template never fails for the three arguments the agent
      passes, and yields the template text with the arguments in place. */
  lemma {:induction false} TemplateFormats(query: string, consultType: string, legalDomain: string)
    ensures Format(PromptTemplate, Arguments(query, consultType, legalDomain))
         == Ok(Intro + consultType + DomainLine + legalDomain + ReplyFormats + query + "\n")
  {
    ThreeFields(Intro, DomainLine, ReplyFormats, "\n", query, consultType, legalDomain);
    Regroup(Escape(Intro), Field("consult_type"), Escape(DomainLine), Field("legal_domain"),
            Escape(ReplyFormats), Field("query"), Escape("\n"));
    Regroup(Intro, consultType, DomainLine, legalDomain, ReplyFormats, query, "\n");
  }

  lemma {:induction false} Regroup(a: string, b: string, c: string, d: string, e: string, f: string, g: string)
    ensures a + b + c + d + e + f + g == a + (b + (c + (d + (e + (f + g)))))
  {
    calc {
      a + b + c + d + e + f + g;
      a + b + c + d + e + (f + g);
      a + b + c + d + (e + (f + g));
      a + b + c + (d + (e + (f + g)));
      a + b + (c + (d + (e + (f + g))));
      a + (b + (c + (d + (e + (f + g)))));
    }
  }

  /** The shape of the template, for any text between its fields. */
  lemma {:induction false} ThreeFields(intro: string, domainLine: string, replies: string, ending: string,
                    query: string, consultType: string, legalDomain: string)
    ensures Format(Escape(intro) + (Field("consult_type") + (Escape(domainLine) + (Field("legal_domain")
                   + (Escape(replies) + (Field("query") + Escape(ending)))))),
                   Arguments(query, consultType, legalDomain))
         == Ok(intro + (consultType + (domainLine + (legalDomain + (replies + (query + ending))))))
  {
    var vars := Arguments(query, consultType, legalDomain);
    ArgumentsBound(query, consultType, legalDomain);
    // The template and its rendering, from the end towards the start.
    var t7, o7 := Escape(ending), ending;
    var t6, o6 := Field("query") + t7, query + o7;
    var t5, o5 := Escape(replies) + t6, replies + o6;
    var t4, o4 := Field("legal_domain") + t5, legalDomain + o5;
    var t3, o3 := Escape(domainLine) + t4, domainLine + o4;
    var t2, o2 := Field("consult_type") + t3, consultType + o3;
    var t1, o1 := Escape(intro) + t2, intro + o2;
    EscapeRoundTrip(ending, vars);
    FieldStep("query", t7, vars, o7);
    TextStep(replies, t6, vars, o6);
    FieldStep("legal_domain", t5, vars, o5);
    TextStep(domainLine, t4, vars, o4);
    FieldStep("consult_type", t3, vars, o3);
    TextStep(intro, t2, vars, o2);
  }

  lemma {:induction false} ArgumentsBound(query: string, consultType: string, legalDomain: string)
    ensures "query" in Arguments(query, consultType, legalDomain)
    ensures "consult_type" in Arguments(query, consultType, legalDomain)
    ensures "legal_domain" in Arguments(query, consultType, legalDomain)
    ensures Arguments(query, consultType, legalDomain)["query"] == query
    ensures Arguments(query, consultType, legalDomain)["consult_type"] == consultType
    ensures Arguments(query, consultType, legalDomain)["legal_domain"] == legalDomain
  {
  }

  lemma {:induction false} TextStep(s: string, rest: string, vars: map<string, string>, o: string)
    requires Format(rest, vars) == Ok(o)
    ensures Format(Escape(s) + rest, vars) == Ok(s + o)
  {
    FormatEscaped(s, rest, vars);
  }

  /** One of the agent's three fields in the template. */
  lemma {:induction false} FieldStep(name: string, rest: string, vars: map<string, string>, o: string)
    requires name in {"query", "legal_domain", "consult_type"}
    requires name in vars && Format(rest, vars) == Ok(o)
    ensures Format(Field(name) + rest, vars) == Ok(vars[name] + o)
  {
    assert name != "" && BraceFree(name);
    FormatField(name, rest, vars);
  }
}
