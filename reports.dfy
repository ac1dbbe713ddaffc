/** The texts the page assembles around a consultation: the `full_query`
    strings handed to the agent, the numbered steps and bulleted
    references, the three downloadable reports, and the download link that
    carries a report as Base64 in a data URI. */
module Reports {
  import opened Wrappers
  import opened JsonValues
  import Text
  import Utf8
  import Base64
  import Agent

  const DocumentPrefix: string := "请解读以下法律文件内容:\n"
  const CasePrefix: string := "案件研究请求:\n"
  const QuestionLabel: string := "\n\n用户问题: "

  /** `full_query` of the document tab: the document text and then the
      question, each after its label. */
  function DocumentQuery(content: string, question: string): (r: string)
    ensures |r| == |DocumentPrefix| + |content| + |QuestionLabel| + |question|
    ensures r[..|DocumentPrefix|] == DocumentPrefix
    ensures r[|DocumentPrefix|..|DocumentPrefix| + |content|] == content
    ensures r[|DocumentPrefix| + |content|..|r| - |question|] == QuestionLabel
    ensures r[|r| - |question|..] == question
  {
    DocumentPrefix + content + QuestionLabel + question
  }

  /** `full_query` of the case tab: the case description and then the
      question, each after its label. */
  function CaseQuery(details: string, question: string): (r: string)
    ensures |r| == |CasePrefix| + |details| + |QuestionLabel| + |question|
    ensures r[..|CasePrefix|] == CasePrefix
    ensures r[|CasePrefix|..|CasePrefix| + |details|] == details
    ensures r[|CasePrefix| + |details|..|r| - |question|] == QuestionLabel
    ensures r[|r| - |question|..] == question
  {
    CasePrefix + details + QuestionLabel + question
  }

  predicate SingleLine(s: string) { '\n' !in s }

  /** `['- ' + ref for ref in references]`. */
  function ReferenceLines(references: seq<string>): seq<string>
  {
    seq(|references|, i requires 0 <= i < |references| => "- " + references[i])
  }

  /** `[str(i + 1) + '. ' + step for i, step in enumerate(steps)]`. */
  function StepLines(steps: seq<string>): seq<string>
  {
    seq(|steps|, i requires 0 <= i < |steps| => Text.NatToString(i + 1) + ". " + steps[i])
  }

  /** The reference block of a report: the bulleted lines joined by newlines. */
  function FormatReferences(references: seq<string>): string
  {
    Text.Join(ReferenceLines(references), "\n")
  }

  /** The step block of the case report: the numbered lines joined by newlines. */
  function FormatSteps(steps: seq<string>): string
  {
    Text.Join(StepLines(steps), "\n")
  }

  /** The lines a block of joined lines reads as: the lines themselves, or
      one empty line when there are none. */
  function Block(lines: seq<string>): seq<string>
  {
    if lines == [] then [""] else lines
  }

  /** A block of items without line breaks reads back line by line, and an
      empty block as one empty line. */
  lemma {:induction false} SplitBlock(lines: seq<string>)
    requires forall i :: 0 <= i < |lines| ==> SingleLine(lines[i])
    ensures Text.Split(Text.Join(lines, "\n"), '\n') == Block(lines)
  {
    if lines != [] {
      Text.SplitJoin(lines, '\n');
    }
  }

  /** Read line by line, a block of one or more references, none of which
      holds a line break, holds `- ref` for each reference, in order, and
      nothing else. */
  lemma {:induction false} ReferencesReadBack(references: seq<string>)
    requires references != []
    requires forall i :: 0 <= i < |references| ==> SingleLine(references[i])
    ensures |Text.Split(FormatReferences(references), '\n')| == |references|
    ensures forall i :: 0 <= i < |references| ==>
              Text.Split(FormatReferences(references), '\n')[i] == "- " + references[i]
  {
    BulletsSingleLine(references);
    SplitBlock(ReferenceLines(references));
  }

  lemma {:induction false} BulletsSingleLine(references: seq<string>)
    requires forall i :: 0 <= i < |references| ==> SingleLine(references[i])
    ensures forall i :: 0 <= i < |references| ==> SingleLine(ReferenceLines(references)[i])
  {
    forall i | 0 <= i < |references| ensures SingleLine(ReferenceLines(references)[i]) {
      assert ReferenceLines(references)[i] == "- " + references[i];
    }
  }

  /** The reference block is empty exactly when there are no references. */
  lemma {:induction false} ReferencesEmpty(references: seq<string>)
    ensures FormatReferences(references) == "" <==> references == []
  {
    var lines := ReferenceLines(references);
    if references != [] {
      assert |Text.Join(lines, "\n")| >= |lines[0]| == 2 + |references[0]|;
    }
  }

  /** Read line by line, a block of one or more steps, none of which holds a
      line break, numbers the steps from 1 in order: line `i` holds the
      decimal number `i + 1`, a dot and a space, and step `i`. */
  lemma {:induction false} StepsReadBack(steps: seq<string>)
    requires steps != []
    requires forall i :: 0 <= i < |steps| ==> SingleLine(steps[i])
    ensures |Text.Split(FormatSteps(steps), '\n')| == |steps|
    ensures forall i :: 0 <= i < |steps| ==>
              var line := Text.Split(FormatSteps(steps), '\n')[i];
              var number := Text.NatToString(i + 1);
              line == number + ". " + steps[i] && Text.ParseNat(line[..|number|]) == Some(i + 1)
  {
    var lines := StepLines(steps);
    forall i | 0 <= i < |steps| ensures SingleLine(lines[i]) && lines[i][..|Text.NatToString(i + 1)|] == Text.NatToString(i + 1) {
      var number := Text.NatToString(i + 1);
      assert lines[i] == number + ". " + steps[i];
      assert '\n' !in number by {
        forall j | 0 <= j < |number| ensures number[j] != '\n' {
          assert '0' <= number[j] <= '9';
        }
      }
    }
    SplitBlock(lines);
    forall i | 0 <= i < |steps|
      ensures Text.ParseNat(lines[i][..|Text.NatToString(i + 1)|]) == Some(i + 1)
    {
      Text.ParseNatToString(i + 1);
    }
  }

  /** What a report shows of a result record: the answer and the lists of
      steps and references, read with `.get` and their defaults. */
  datatype View = View(answer: string, steps: seq<string>, references: seq<string>)

  /** A list-valued entry read with `.get(key, [])`. */
  function ListEntry(result: Json, key: string): (r: Option<seq<string>>)
    requires result.Obj?
    ensures r == AsStrings(DictGet(result, key, Arr([])).value)
  {
    if key in result.fields then AsStrings(result.fields[key]) else Some([])
  }

  /** The parts of a result record a report prints, when it is an object
      whose answer (if any) is a string and whose references (if any) are a
      list of strings; the steps are read only for the case report
      (`withSteps`) and must then be a list of strings as well; `None`
      otherwise. */
  function ViewResult(result: Json, withSteps: bool): (r: Option<View>)
    ensures r.Some? ==> result.Obj?
    ensures r.Some? ==> DictGet(result, "answer", Str("")) == Ok(Str(r.value.answer))
    ensures r.Some? && withSteps ==> AsStrings(DictGet(result, "steps", Arr([])).value) == Some(r.value.steps)
    ensures r.Some? && !withSteps ==> r.value.steps == []
    ensures r.Some? ==> AsStrings(DictGet(result, "references", Arr([])).value) == Some(r.value.references)
    ensures (result.Obj? && DictGet(result, "answer", Str("")).value.Str?
             && (withSteps ==> AsStrings(DictGet(result, "steps", Arr([])).value).Some?)
             && AsStrings(DictGet(result, "references", Arr([])).value).Some?) ==> r.Some?
  {
    if !result.Obj? then None
    else
      var answer := if "answer" in result.fields then result.fields["answer"] else Str("");
      var steps := if withSteps then ListEntry(result, "steps") else Some([]);
      match (answer, steps, ListEntry(result, "references"))
      case (Str(a), Some(steps), Some(references)) => Some(View(a, steps, references))
      case _ => None
  }

  /** A list field the page cannot print: `for x in v` raises `TypeError`
      on `null`, a number or a boolean, and `'- ' + x` (or `'. ' + x`) on a
      list item that is not a string. A string or an object is iterated
      without error. */
  predicate ListFieldRaises(v: Json)
  {
    v.Null? || v.Bool? || v.Number? || (v.Arr? && exists i :: 0 <= i < |v.items| && !v.items[i].Str?)
  }

  /** Displaying an object result and building its report raise `TypeError`:
      its references or, in the case tab (`withSteps`), its steps are a field
      the page cannot print. */
  predicate DisplayRaises(result: Json, withSteps: bool)
    requires result.Obj?
  {
    || ("references" in result.fields && ListFieldRaises(result.fields["references"]))
    || (withSteps && "steps" in result.fields && ListFieldRaises(result.fields["steps"]))
  }

  /** A record whose display raises has no view, and a record without a view
      either raises or holds a field the f-string prints by its `str()`: an
      answer that is not a string, or a list field that is a string or an
      object. */
  lemma {:induction false} RaisingHasNoView(result: Json, withSteps: bool)
    requires result.Obj?
    ensures DisplayRaises(result, withSteps) ==> ViewResult(result, withSteps).None?
    ensures ViewResult(result, withSteps).None? <==>
              || DisplayRaises(result, withSteps)
              || ("answer" in result.fields && !result.fields["answer"].Str?)
              || ("references" in result.fields && (result.fields["references"].Str? || result.fields["references"].Obj?))
              || (withSteps && "steps" in result.fields && (result.fields["steps"].Str? || result.fields["steps"].Obj?))
  {
    ListFieldCases(result, "references");
    ListFieldCases(result, "steps");
  }

  /** A present list field reads as strings, raises, or is a string or an
      object. */
  lemma {:induction false} ListFieldCases(result: Json, key: string)
    requires result.Obj?
    ensures key in result.fields ==>
              var v := result.fields[key];
              (ListEntry(result, key).Some? <==> (!ListFieldRaises(v) && !v.Str? && !v.Obj?))
    ensures key !in result.fields ==> ListEntry(result, key) == Some([])
  {
    if key in result.fields {
      var v := result.fields[key];
      if v.Arr? && ListEntry(result, key).None? {
        var i :| 0 <= i < |v.items| && !v.items[i].Str?;
      }
    }
  }

  /** Every fixed record of the agent is shown with its answer, no steps and
      its references, by every report. */
  lemma {:induction false} ViewOfAnswer(answer: string, references: seq<string>, withSteps: bool)
    ensures ViewResult(Agent.Answer(answer, references), withSteps) == Some(View(answer, [], references))
  {
    var r := Agent.Answer(answer, references);
    assert "steps" !in r.fields;
  }

  /** A report line, the newline after it, and the rest of the report. */
  function Line(s: string, rest: string): string
  {
    s + "\n" + rest
  }

  /** The report of the basic-information tab, line by line as its f-string
      writes it. */
  function BasicReport(timestamp: string, domain: string, query: string, view: View): string
  {
    Line("法律咨询报告", Line("日期: " + timestamp, Line("咨询类型: 基本法律信息",
    Line("法律领域: " + domain, Line("问题: " + query, Line("", Line("法律建议:",
    Line(view.answer, Line("", Line("法律参考:", Line(FormatReferences(view.references), "")))))))))))
  }

  /** The report of the document tab; without an uploaded file the name
      reads "未知文件". */
  function DocumentReport(timestamp: string, fileName: Option<string>, query: string, view: View): string
  {
    Line("法律文件解读报告", Line("日期: " + timestamp,
    Line("文件名: " + (if fileName.Some? then fileName.value else "未知文件"),
    Line("问题: " + query, Line("", Line("解读结果:", Line(view.answer, Line("", Line("法律参考:",
    Line(FormatReferences(view.references), ""))))))))))
  }

  /** The report of the case tab. */
  function CaseReport(timestamp: string, domain: string, details: string, query: string, view: View): string
  {
    Line("案件研究报告", Line("日期: " + timestamp, Line("法律领域: " + domain, Line("案件情况: " + details,
    Line("咨询问题: " + query, Line("", Line("案件分析:", Line(view.answer, CaseTail(view)))))))))
  }

  /** Splitting at the newline that ends a line splits the line and the rest
      independently. */
  lemma {:induction false} SplitLine(s: string, rest: string)
    ensures Text.Split(Line(s, rest), '\n') == Text.Split(s, '\n') + Text.Split(rest, '\n')
  {
    assert Line(s, rest) == s + ['\n'] + rest;
    Text.SplitConcat(s, '\n', rest);
  }

  /** A fixed single-line text reads back as one line before the rest. */
  lemma {:induction false} FixedLine(s: string, rest: string)
    requires SingleLine(s)
    ensures Text.Split(Line(s, rest), '\n') == [s] + Text.Split(rest, '\n')
  {
    SplitLine(s, rest);
    Text.SplitWhole(s, '\n');
  }

  /** Read line by line, the basic report holds its title, the lines of the
      date, the consultation type, the domain, the question and the answer,
      and the lines of the reference block, in this order, each fixed label
      on a line of its own, and a final newline. The texts are arbitrary: a
      question or an answer over several lines occupies those lines. */
  lemma {:induction false} BasicReportLines(timestamp: string, domain: string, query: string, view: View)
    ensures Text.Split(BasicReport(timestamp, domain, query, view), '\n')
         == ["法律咨询报告"] + (Text.Split("日期: " + timestamp, '\n') + (["咨询类型: 基本法律信息"]
            + (Text.Split("法律领域: " + domain, '\n') + (Text.Split("问题: " + query, '\n')
            + ([""] + (["法律建议:"] + (Text.Split(view.answer, '\n') + ([""] + (["法律参考:"]
            + (Text.Split(FormatReferences(view.references), '\n') + [""]))))))))))
  {
    var r10 := Line(FormatReferences(view.references), "");
    SplitLine(FormatReferences(view.references), "");
    var r9 := Line("法律参考:", r10);
    FixedLine("法律参考:", r10);
    var r8 := Line("", r9);
    FixedLine("", r9);
    var r7 := Line(view.answer, r8);
    SplitLine(view.answer, r8);
    var r6 := Line("法律建议:", r7);
    FixedLine("法律建议:", r7);
    var r5 := Line("", r6);
    FixedLine("", r6);
    var r4 := Line("问题: " + query, r5);
    SplitLine("问题: " + query, r5);
    var r3 := Line("法律领域: " + domain, r4);
    SplitLine("法律领域: " + domain, r4);
    var r2 := Line("咨询类型: 基本法律信息", r3);
    FixedLine("咨询类型: 基本法律信息", r3);
    var r1 := Line("日期: " + timestamp, r2);
    SplitLine("日期: " + timestamp, r2);
    FixedLine("法律咨询报告", r1);
  }

  /** Read line by line, the document report holds its title, the lines of
      the date, the file name, the question and the answer, and the lines of
      the reference block, in this order, and a final newline. */
  lemma {:induction false} DocumentReportLines(timestamp: string, fileName: Option<string>, query: string, view: View)
    ensures Text.Split(DocumentReport(timestamp, fileName, query, view), '\n')
         == ["法律文件解读报告"] + (Text.Split("日期: " + timestamp, '\n')
            + (Text.Split("文件名: " + (if fileName.Some? then fileName.value else "未知文件"), '\n')
            + (Text.Split("问题: " + query, '\n') + ([""] + (["解读结果:"] + (Text.Split(view.answer, '\n')
            + ([""] + (["法律参考:"] + (Text.Split(FormatReferences(view.references), '\n') + [""])))))))))
  {
    var name := "文件名: " + (if fileName.Some? then fileName.value else "未知文件");
    var r9 := Line(FormatReferences(view.references), "");
    SplitLine(FormatReferences(view.references), "");
    var r8 := Line("法律参考:", r9);
    FixedLine("法律参考:", r9);
    var r7 := Line("", r8);
    FixedLine("", r8);
    var r6 := Line(view.answer, r7);
    SplitLine(view.answer, r7);
    var r5 := Line("解读结果:", r6);
    FixedLine("解读结果:", r6);
    var r4 := Line("", r5);
    FixedLine("", r5);
    var r3 := Line("问题: " + query, r4);
    SplitLine("问题: " + query, r4);
    var r2 := Line(name, r3);
    SplitLine(name, r3);
    var r1 := Line("日期: " + timestamp, r2);
    SplitLine("日期: " + timestamp, r2);
    FixedLine("法律文件解读报告", r1);
  }

  /** Read line by line, the case report holds its title, the lines of the
      date, the domain, the case description, the question and the answer,
      the lines of the step block and those of the reference block, in this
      order, and a final newline. */
  lemma {:induction false} CaseReportLines(timestamp: string, domain: string, details: string,
                                           query: string, view: View)
    ensures Text.Split(CaseReport(timestamp, domain, details, query, view), '\n')
         == ["案件研究报告"] + (Text.Split("日期: " + timestamp, '\n') + (Text.Split("法律领域: " + domain, '\n')
            + (Text.Split("案件情况: " + details, '\n') + (Text.Split("咨询问题: " + query, '\n')
            + ([""] + (["案件分析:"] + (Text.Split(view.answer, '\n') + Text.Split(CaseTail(view), '\n'))))))))
  {
    var tail := CaseTail(view);
    CaseTailLines(view);
    var r7 := Line(view.answer, tail);
    SplitLine(view.answer, tail);
    var r6 := Line("案件分析:", r7);
    FixedLine("案件分析:", r7);
    var r5 := Line("", r6);
    FixedLine("", r6);
    var r4 := Line("咨询问题: " + query, r5);
    SplitLine("咨询问题: " + query, r5);
    var r3 := Line("案件情况: " + details, r4);
    SplitLine("案件情况: " + details, r4);
    var r2 := Line("法律领域: " + domain, r3);
    SplitLine("法律领域: " + domain, r3);
    var r1 := Line("日期: " + timestamp, r2);
    SplitLine("日期: " + timestamp, r2);
    FixedLine("案件研究报告", r1);
  }

  /** The part of the case report after the answer: the step block and the
      reference block under their labels. */
  function CaseTail(view: View): string
  {
    Line("", Line("建议步骤:", Line(FormatSteps(view.steps), Line("", Line("法律参考:",
    Line(FormatReferences(view.references), ""))))))
  }

  lemma {:induction false} CaseTailLines(view: View)
    ensures Text.Split(CaseTail(view), '\n')
         == [""] + (["建议步骤:"] + (Text.Split(FormatSteps(view.steps), '\n') + ([""] + (["法律参考:"]
            + (Text.Split(FormatReferences(view.references), '\n') + [""])))))
  {
    var r6 := Line(FormatReferences(view.references), "");
    SplitLine(FormatReferences(view.references), "");
    var r5 := Line("法律参考:", r6);
    FixedLine("法律参考:", r6);
    var r4 := Line("", r5);
    FixedLine("", r5);
    var r3 := Line(FormatSteps(view.steps), r4);
    SplitLine(FormatSteps(view.steps), r4);
    var r2 := Line("建议步骤:", r3);
    FixedLine("建议步骤:", r3);
    FixedLine("", r2);
  }

  const LinkPrefix: string := "<a href=\"data:file/txt;base64,"
  const DefaultLabel: string := "下载分析报告"

  /** `get_download_link(text, filename, label)`: an anchor whose data URI
      carries the Base64 of the text's UTF-8 bytes, offering it under
      `filename` with the link text `caption`. */
  function GetDownloadLink(text: string, filename: string, caption: string := DefaultLabel): string
  {
    LinkPrefix + Base64.Encode(Utf8.Encode(text)) + "\" download=\"" + filename + "\">\U{1F4C4} " + caption + "</a>"
  }

  /** The payload of a data-URI anchor of that shape: the text between the
      prefix and the next double quote. */
  function LinkPayload(link: string): (r: Option<string>)
    ensures r.Some? ==> '"' !in r.value
  {
    if |link| < |LinkPrefix| || link[..|LinkPrefix|] != LinkPrefix then None
    else
      var body := link[|LinkPrefix|..];
      match Text.FindChar(body, '"')
      case None => None
      case Some(k) => Some(body[..k])
  }

  /** Base64 text never holds a double quote, so it cannot end the
      attribute early. */
  lemma {:induction false} PayloadQuoteFree(bs: seq<Utf8.Byte>)
    ensures '"' !in Base64.Encode(bs)
  {
    Base64.EncodeAlphabet(bs);
    assert Base64.Value('"').None?;
  }

  /** Following the link gives back the text: the payload is the Base64 of
      the text's UTF-8 bytes, it decodes to those bytes, and they decode to
      the text. */
  lemma {:induction false} DownloadRoundTrip(text: string, filename: string, caption: string)
    ensures LinkPayload(GetDownloadLink(text, filename, caption)) == Some(Base64.Encode(Utf8.Encode(text)))
    ensures Base64.Decode(LinkPayload(GetDownloadLink(text, filename, caption)).value) == Some(Utf8.Encode(text))
    ensures Utf8.Decode(Utf8.Encode(text)) == Some(text)
  {
    var payload := Base64.Encode(Utf8.Encode(text));
    var rest := " download=\"" + filename + "\">\U{1F4C4} " + caption + "</a>";
    assert "\" download=\"" == "\"" + " download=\"";
    assert GetDownloadLink(text, filename, caption) == LinkPrefix + payload + ("\"" + rest);
    PayloadQuoteFree(Utf8.Encode(text));
    PayloadOf(payload, rest);
    Base64.DecodeEncode(Utf8.Encode(text));
    Utf8.DecodeEncode(text);
  }

  /** The payload of an anchor is what stands between the prefix and the
      first double quote. */
  lemma {:induction false} PayloadOf(payload: string, rest: string)
    requires '"' !in payload
    ensures LinkPayload(LinkPrefix + payload + ("\"" + rest)) == Some(payload)
  {
    var link := LinkPrefix + payload + ("\"" + rest);
    var body := payload + ['"'] + rest;
    assert link[..|LinkPrefix|] == LinkPrefix;
    assert link[|LinkPrefix|..] == body;
    Text.FindCharAfter(payload, '"', rest);
    assert body[..|payload|] == payload;
  }
}
