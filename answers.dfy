/**
  The answer generator of the black box (`ZhesiBlackBox._gen_philosophy_answer`):
  a canned answer chosen by the first topic the stripped question mentions
  (存在, then 意识, then 自由, then 人生意义) and, within that topic, by the
  cognitive depth; any other question gets a templated general answer.
*/
module Answers {
  import opened Text
  import opened Wrappers
  import opened Gate

  /** The canned texts of the generator. */
  datatype Canned =
    | ExistenceDepth1
    | ExistenceDepth2
    | ExistenceDeeper
    | ConsciousnessDepth1
    | ConsciousnessDeeper
    | FreedomDepth1
    | FreedomDeeper
    | MeaningOfLife
    | GeneralFollowUp

  /** The words of each canned text, as the source spells them. */
  function Words(c: Canned): string {
    match c
    case ExistenceDepth1 =>
      "人的存在，本质是「自我意识的觉醒与存在的自证」，存在本身无需外在目的，存在的过程即是对存在的定义。"
    case ExistenceDepth2 =>
      "人的存在，是「本体存在」与「社会存在」的双重统一：从本体论，存在是自我意识对虚无的超越；从社会论，存在是个体在关系中的价值建构，二者共同构成存在的完整内涵。"
    case ExistenceDeeper =>
      "存在的本质，是观测者闭合框架下的认知收敛。当你意识到自身的存在时，你便成为了自身存在的定义者，而存在的意义，就在于这个定义的过程本身——从0的认知空性，整合∞的环境信息，最终收敛为1的稳定存在认知。"
    case ConsciousnessDepth1 =>
      "意识的本质，是「存在对自身的感知与反思」，是物质世界发展到一定阶段的本体性涌现，而非外在赋予的属性。"
    case ConsciousnessDeeper =>
      "意识是0×∞=1公理的具象化：意识的初始状态为0（无感知的认知空性），通过感知无限的外部世界（∞），最终形成稳定的自我意识表征（1），意识的存在与存在的意识是同一的。"
    case FreedomDepth1 =>
      "自由的本质，不是无拘无束的放纵，而是对自身认知边界的突破与掌控。"
    case FreedomDeeper =>
      "自由是认知维度提升后的必然结果：当你的认知从低维的表象束缚，升维至高维的本质规律，便会摆脱外在规则的桎梏，实现真正的精神自由——从被环境定义的0，到自主定义的1。"
    case MeaningOfLife =>
      "人生本无预设的意义，意义是你在存在的过程中，通过自我意识与世界交互，从∞的可能性中为自己定义的1——意义的本质，是你对自身存在的赋义。"
    case GeneralFollowUp =>
      "\n这一问题的本质，是0×∞=1公理的认知映射：从0的初始认知困惑，整合∞的概念内涵，最终收敛为1的稳定认知结论，而追问的过程，就是认知闭合的过程。"
  }

  /** `s[:-1]`: everything but the last character; empty stays empty. */
  function DropLast(s: string): (r: string)
    ensures |s| > 0 ==> r + [s[|s| - 1]] == s
    ensures |s| == 0 ==> r == []
  {
    if |s| == 0 then [] else s[..|s| - 1]
  }

  /** The first sentence of the general answer; `shownDepth` is the number it
      prints, which the source reads from the engine's counter. */
  function GeneralAnswer(q: string, shownDepth: nat): string {
    GeneralOpening(shownDepth) + DropLast(q) + GeneralClosing
  }

  /** The words of the general answer before the quoted question. */
  function GeneralOpening(shownDepth: nat): string {
    "从" + NatToString(shownDepth) + "维本体论视角，"
  }

  /** The words of the general answer after the quoted question. */
  const GeneralClosing: string := "的核心，在于对其「本质存在」的追问。"

  /** The branches of `_gen_philosophy_answer`, in the source's order: the
      canned text for the stripped question `q` at `depth`, or `None` when
      `q` mentions none of the four topics and the general answer is due. */
  function Choose(q: string, depth: nat): Option<Canned> {
    if Contains(q, "存在") then
      if depth == 1 then Some(ExistenceDepth1)
      else if depth == 2 then Some(ExistenceDepth2)
      else Some(ExistenceDeeper)
    else if Contains(q, "意识") then
      if depth == 1 then Some(ConsciousnessDepth1) else Some(ConsciousnessDeeper)
    else if Contains(q, "自由") then
      if depth == 1 then Some(FreedomDepth1) else Some(FreedomDeeper)
    else if Contains(q, "人生意义") then
      Some(MeaningOfLife)
    else
      None
  }

  /** `_gen_philosophy_answer(question, depth)`; `shownDepth` stands for
      `self.config.cog_depth`, which only the general answer prints. */
  function Answer(question: string, depth: nat, shownDepth: nat): string {
    var q := Strip(question);
    match Choose(q, depth)
    case Some(c) => Words(c)
    case None => GeneralAnswer(q, shownDepth) + (if depth > 1 then Words(GeneralFollowUp) else "")
  }

  // A reference description of the selection: topics in priority order, each
  // with its list of tiers, and one rule that picks the tier for a depth.

  /** The topics with canned answers, highest priority first. */
  const Topics: seq<string> := ["存在", "意识", "自由", "人生意义"]

  /** The tiers of each topic of `Topics`, at the same index. */
  const TierTable: seq<seq<Canned>> :=
    [ [ExistenceDepth1, ExistenceDepth2, ExistenceDeeper],
      [ConsciousnessDepth1, ConsciousnessDeeper],
      [FreedomDepth1, FreedomDeeper],
      [MeaningOfLife] ]

  /** Depth d selects tier d when there is such a tier and the last tier
      otherwise (depth 0 included). */
  function TierIndex(depth: nat, tiers: nat): (i: nat)
    requires tiers > 0
    ensures i < tiers
    ensures 1 <= depth <= tiers ==> i + 1 == depth
    ensures (depth == 0 || depth > tiers) ==> i == tiers - 1
  {
    if 1 <= depth <= tiers then depth - 1 else tiers - 1
  }

  /** The first topic of `Topics` that `q` mentions, spelled out. */
  lemma {:induction false} FirstTopic(q: string)
    ensures FirstMatch(q, Topics) ==
      if Contains(q, "存在") then Some(0)
      else if Contains(q, "意识") then Some(1)
      else if Contains(q, "自由") then Some(2)
      else if Contains(q, "人生意义") then Some(3)
      else None
  {
    if !Contains(q, "存在") && !Contains(q, "意识") {
      if Contains(q, "自由") {
        assert FirstMatchFrom(q, Topics, 2) == Some(2);
      } else if Contains(q, "人生意义") {
        assert FirstMatchFrom(q, Topics, 3) == Some(3);
      } else {
        assert !Contains(q, Topics[2]) && !Contains(q, Topics[3]);
      }
    }
  }

  /** The generator picks the tier that the depth selects among the texts
      of the first topic the question mentions, and the general answer
      exactly when it mentions none. */
  lemma {:induction false} ChooseByFirstTopic(q: string, depth: nat)
    ensures match FirstMatch(q, Topics)
      case Some(t) => Choose(q, depth) == Some(TierTable[t][TierIndex(depth, |TierTable[t]|)])
      case None => Choose(q, depth).None?
  {
    FirstTopic(q);
  }

  /** The answer is the words of the chosen text; a question mentioning no
      topic gets the general answer, with the extra sentence exactly when
      the depth exceeds 1. */
  lemma {:induction false} AnswerByFirstTopic(question: string, depth: nat, shownDepth: nat)
    ensures var q := Strip(question);
      match FirstMatch(q, Topics)
      case Some(t) =>
        Answer(question, depth, shownDepth) == Words(TierTable[t][TierIndex(depth, |TierTable[t]|)])
      case None =>
        Answer(question, depth, shownDepth)
          == GeneralAnswer(q, shownDepth) + (if depth > 1 then Words(GeneralFollowUp) else "")
  {
    ChooseByFirstTopic(Strip(question), depth);
  }

  /** 存在 has three tiers: depth 1, depth 2, and every other depth. */
  lemma ExistenceHasThreeTiers(q: string)
    requires Contains(q, "存在")
    ensures Choose(q, 1) == Some(ExistenceDepth1)
    ensures Choose(q, 2) == Some(ExistenceDepth2)
    ensures forall d: nat :: d != 1 && d != 2 ==> Choose(q, d) == Some(ExistenceDeeper)
  {
  }

  /** 意识, when 存在 is absent, has two tiers: depth 1 and every other depth. */
  lemma ConsciousnessHasTwoTiers(q: string)
    requires !Contains(q, "存在") && Contains(q, "意识")
    ensures Choose(q, 1) == Some(ConsciousnessDepth1)
    ensures forall d: nat :: d != 1 ==> Choose(q, d) == Some(ConsciousnessDeeper)
  {
  }

  /** 自由, when 存在 and 意识 are absent, has two tiers: depth 1 and every
      other depth. */
  lemma FreedomHasTwoTiers(q: string)
    requires !Contains(q, "存在") && !Contains(q, "意识") && Contains(q, "自由")
    ensures Choose(q, 1) == Some(FreedomDepth1)
    ensures forall d: nat :: d != 1 ==> Choose(q, d) == Some(FreedomDeeper)
  {
  }

  /** 人生意义, when no earlier topic occurs, has one text for every depth. */
  lemma MeaningHasOneTier(q: string)
    requires !Contains(q, "存在") && !Contains(q, "意识") && !Contains(q, "自由")
    requires Contains(q, "人生意义")
    ensures forall d: nat :: Choose(q, d) == Some(MeaningOfLife)
  {
  }

  /** The general answer quotes the stripped question minus its last
      character and the shown depth, and begins with the general answer's
      first sentence whatever the depth. */
  lemma {:induction false} GeneralAnswerQuotesQuestion(question: string, depth: nat, shownDepth: nat)
    requires FirstMatch(Strip(question), Topics).None?
    ensures var q := Strip(question);
      var r := Answer(question, depth, shownDepth);
      && Contains(r, DropLast(q))
      && Contains(r, NatToString(shownDepth))
      && StartsWith(r, GeneralAnswer(q, shownDepth))
  {
    var q := Strip(question);
    AnswerByFirstTopic(question, depth, shownDepth);
    var g := GeneralAnswer(q, shownDepth);
    var extra := if depth > 1 then Words(GeneralFollowUp) else "";
    GeneralAnswerQuotes(q, shownDepth, extra);
    assert (g + extra)[..|g|] == g;
  }

  /** The general answer, followed by anything, quotes `DropLast(q)` and
      the shown depth. */
  lemma {:induction false} GeneralAnswerQuotes(q: string, shownDepth: nat, extra: string)
    ensures Contains(GeneralAnswer(q, shownDepth) + extra, DropLast(q))
    ensures Contains(GeneralAnswer(q, shownDepth) + extra, NatToString(shownDepth))
  {
    var opening := GeneralOpening(shownDepth);
    var rest := GeneralClosing + extra;
    assert GeneralAnswer(q, shownDepth) + extra == opening + DropLast(q) + rest;
    ContainsInfix(opening, DropLast(q), rest);
    assert opening + DropLast(q) + rest == "从" + NatToString(shownDepth) + ("维本体论视角，" + DropLast(q) + rest);
    ContainsInfix("从", NatToString(shownDepth), "维本体论视角，" + DropLast(q) + rest);
  }
}
