/**
  The legality gate of the black box (`ZhesiBlackBox._check_legal`): an
  empty question is refused first, then any question mentioning a
  forbidden mathematics keyword, and only then a question that mentions
  none of the supported philosophical dimensions.
*/
module Gate {
  import opened Text
  import opened Wrappers

  /** The supported philosophical dimensions, in the source's order. */
  const Fields: seq<string> :=
    ["存在", "意识", "真理", "自由", "价值", "人生意义", "因果", "时空", "自我", "本心"]

  /** The forbidden mathematics keywords, in the order they are tried. */
  const ForbiddenKeywords: seq<string> :=
    [ "黎曼猜想", "哥德巴赫猜想", "NP完全问题", "霍奇猜想", "BSD猜想",
      "纳维-斯托克斯", "杨-米尔斯", "庞加莱猜想", "数学难题", "数学猜想",
      "证明", "推导", "证伪", "公理", "定理", "公式推导", "数学求解" ]

  /** Why the gate refuses a question. */
  datatype GateError =
    | EmptyQuestion                      // the ValueError for blank input
    | ForbiddenKeyword(keyword: string)  // the PermissionError, naming the keyword
    | UnsupportedField                   // the ValueError for a non-philosophical question

  datatype Verdict = Legal | Illegal(error: GateError)

  /** Some keyword of `keywords` occurs in `q`. */
  predicate MentionsAny(q: string, keywords: seq<string>) {
    exists i :: 0 <= i < |keywords| && Contains(q, keywords[i])
  }

  /** The index of the first keyword of `keywords` that occurs in `q`. */
  function FirstMatch(q: string, keywords: seq<string>): (r: Option<nat>)
    ensures r.Some? ==> r.value < |keywords| && Contains(q, keywords[r.value])
    ensures r.Some? ==> forall j :: 0 <= j < r.value ==> !Contains(q, keywords[j])
    ensures r.None? <==> !MentionsAny(q, keywords)
  {
    FirstMatchFrom(q, keywords, 0)
  }

  /** The first keyword at index `from` or later that occurs in `q`. */
  function FirstMatchFrom(q: string, keywords: seq<string>, from: nat): (r: Option<nat>)
    requires from <= |keywords|
    decreases |keywords| - from
    ensures r.Some? ==> from <= r.value < |keywords| && Contains(q, keywords[r.value])
    ensures r.Some? ==> forall j :: from <= j < r.value ==> !Contains(q, keywords[j])
    ensures r.None? ==> forall j :: from <= j < |keywords| ==> !Contains(q, keywords[j])
  {
    if from == |keywords| then None
    else if Contains(q, keywords[from]) then Some(from)
    else FirstMatchFrom(q, keywords, from + 1)
  }

  /** `_check_legal`: strip the question, refuse it when empty, then
      consult the blocklist, and only then the list of supported fields. */
  function CheckLegal(question: string): Verdict {
    var q := Strip(question);
    if |q| == 0 then Illegal(EmptyQuestion)
    else match FirstMatch(q, ForbiddenKeywords)
      case Some(i) => Illegal(ForbiddenKeyword(ForbiddenKeywords[i]))
      case None => if FirstMatch(q, Fields).None? then Illegal(UnsupportedField) else Legal
  }

  /** A question is refused as empty exactly when it is white space only. */
  lemma BlankQuestionRefused(question: string)
    ensures CheckLegal(question) == Illegal(EmptyQuestion) <==> AllSpace(question)
  {
  }

  /** The blocklist comes first: a non-blank question that mentions a
      forbidden keyword is refused for it, whatever fields it mentions, and
      the keyword reported is the first of the list that occurs. */
  lemma ForbiddenKeywordRefused(question: string)
    ensures var v := CheckLegal(question);
            v.Illegal? && v.error.ForbiddenKeyword? <==>
              !AllSpace(question) && MentionsAny(Strip(question), ForbiddenKeywords)
    ensures var v := CheckLegal(question);
            v.Illegal? && v.error.ForbiddenKeyword? ==>
              exists i :: 0 <= i < |ForbiddenKeywords| && v.error.keyword == ForbiddenKeywords[i]
                && Contains(Strip(question), ForbiddenKeywords[i])
                && forall j :: 0 <= j < i ==> !Contains(Strip(question), ForbiddenKeywords[j])
  {
  }

  /** The allowlist decides only what the blocklist lets through: such a
      question is legal exactly when it mentions a supported field. */
  lemma FieldDecidesTheRest(question: string)
    ensures CheckLegal(question) == Illegal(UnsupportedField) <==>
              !AllSpace(question) && !MentionsAny(Strip(question), ForbiddenKeywords)
              && !MentionsAny(Strip(question), Fields)
    ensures CheckLegal(question) == Legal <==>
              !AllSpace(question) && !MentionsAny(Strip(question), ForbiddenKeywords)
              && MentionsAny(Strip(question), Fields)
  {
  }

  /** The gate sees only the stripped question, so stripping first changes nothing. */
  lemma {:induction false} CheckLegalOfStripped(question: string)
    ensures CheckLegal(Strip(question)) == CheckLegal(question)
  {
    StripIdempotent(question);
  }

  /** Any question that mentions 黎曼猜想, the first forbidden keyword, is
      refused with that keyword, whatever else it mentions: the other
      forbidden keywords and the supported fields alike. */
  lemma RiemannAlwaysReported(question: string)
    requires Contains(Strip(question), "黎曼猜想")
    ensures CheckLegal(question) == Illegal(ForbiddenKeyword("黎曼猜想"))
  {
    var q := Strip(question);
    ContainsIffOccurs(q, "黎曼猜想");
    assert |q| > 0;
    assert ForbiddenKeywords[0] == "黎曼猜想";
  }
}
