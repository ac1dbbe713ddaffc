/** The fixed catalog of legal domains and the example questions offered for
    each of them (the constant tables of `utils.py` and their two getters). */
module Catalog {
  import opened Wrappers

  /** The domain a new session starts on and the fallback for questions. */
  const DefaultDomain: string := "一般法律咨询"

  /** `LEGAL_DOMAINS`, in display order. */
  const LegalDomains: seq<string> := [
    "一般法律咨询",
    "劳动法",
    "合同法",
    "婚姻家庭法",
    "刑事法",
    "民事诉讼",
    "商业法",
    "知识产权",
    "房地产法",
    "行政法",
    "交通事故",
    "消费者权益",
    "医疗纠纷"
  ]

  /** `SAMPLE_QUESTIONS`: three example questions per domain. */
  const SampleQuestions: map<string, seq<string>> := map[
    "一般法律咨询" := ["如何查询某项法律法规的最新版本？", "我需要法律援助，应该如何申请？", "什么情况下需要公证？"],
    "劳动法" := ["单位无故拖欠工资怎么办？", "试用期被辞退是否有赔偿？", "加班费如何计算？"],
    "合同法" := ["口头协议是否具有法律效力？", "合同中的违约金上限是多少？", "对方不履行合同义务怎么办？"],
    "婚姻家庭法" := ["离婚时财产如何分割？", "如何申请子女抚养权？", "家庭暴力应如何寻求法律保护？"],
    "刑事法" := ["什么是正当防卫？", "取保候审的条件是什么？", "轻伤和重伤的法律界定标准是什么？"],
    "民事诉讼" := ["民事诉讼的基本流程是什么？", "如何申请法院强制执行？", "民事诉讼的诉讼时效是多久？"],
    "商业法" := ["注册公司的基本法律要求是什么？", "股东权益如何得到法律保障？", "公司破产清算的流程是什么？"],
    "知识产权" := ["如何为自己的创意申请专利？", "商标侵权的判定标准是什么？", "软件著作权保护期限是多久？"],
    "房地产法" := ["二手房交易中需要注意哪些法律问题？", "房屋租赁合同必须包含哪些条款？", "业主维权的法律途径有哪些？"],
    "行政法" := ["如何申请政府信息公开？", "行政复议的申请条件和流程是什么？", "行政处罚决定不服如何救济？"],
    "交通事故" := ["交通事故责任如何认定？", "交通事故赔偿项目包括哪些？", "交通事故调解不成功怎么办？"],
    "消费者权益" := ["网购商品存在质量问题如何维权？", "餐饮食品安全问题的赔偿标准是什么？", "如何投诉商家虚假宣传？"],
    "医疗纠纷" := ["医疗事故与医疗过错的区别是什么？", "医疗损害赔偿的构成要件有哪些？", "如何收集医疗纠纷证据？"]
  ]

  /** Every catalog domain has an entry of exactly three questions, and
      there is no entry for a domain outside the catalog. */
  lemma CatalogComplete()
    ensures forall d :: d in LegalDomains <==> d in SampleQuestions
    ensures forall d :: d in SampleQuestions ==> |SampleQuestions[d]| == 3
  {
  }

  /** No domain is listed twice, so a position in the list names one domain. */
  lemma DomainsDistinct()
    ensures forall i, j :: 0 <= i < j < |LegalDomains| ==> LegalDomains[i] != LegalDomains[j]
  {
  }

  /** `get_legal_domains()`: the catalog as it is, starting with the domain a
      new session selects. */
  function GetLegalDomains(): (r: seq<string>)
    ensures |r| == 13 && r[0] == DefaultDomain
    ensures forall d :: d in r <==> d in SampleQuestions
  {
    CatalogComplete();
    LegalDomains
  }

  /** `get_sample_questions(domain)`: the questions of a catalog domain, and
      those of the default domain for any other label. */
  function GetSampleQuestions(domain: string): (r: seq<string>)
    ensures domain in SampleQuestions ==> r == SampleQuestions[domain]
    ensures domain !in SampleQuestions ==> r == SampleQuestions[DefaultDomain]
    ensures |r| == 3
  {
    CatalogComplete();
    if domain in SampleQuestions then SampleQuestions[domain] else SampleQuestions[DefaultDomain]
  }

  /** Python's `list.index(x)`: the first position holding `x`, or `None`
      where Python raises `ValueError`. */
  function IndexOf(s: seq<string>, x: string): (r: Option<nat>)
    ensures r.Some? ==> r.value < |s| && s[r.value] == x && forall j :: 0 <= j < r.value ==> s[j] != x
    ensures r.None? <==> x !in s
  {
    if s == [] then None
    else if s[0] == x then Some(0)
    else match IndexOf(s[1..], x)
      case None => None
      case Some(i) => Some(i + 1)
  }

  /** The selection box of a new session opens on the first entry, and any
      catalog domain is found where it is listed. */
  lemma DomainIndex(i: nat)
    requires i < |LegalDomains|
    ensures IndexOf(GetLegalDomains(), LegalDomains[i]) == Some(i)
  {
    DomainsDistinct();
  }
}
