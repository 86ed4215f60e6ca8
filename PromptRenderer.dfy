/**
 * `render_writing_prompt`: the prompt for writing one section of the paper, built
 * from three levels of context within the writing model's context limit.
 *
 * The three level renderers and the token counter are not part of this model;
 * they are parameters. Level 1 (the instructions for the section) is always
 * kept whole; what remains of the limit is split between level 2 (the sections
 * already written) and level 3 (the source notes), and whatever level 2 leaves
 * unused is handed on to level 3.
 */
module PromptRenderer {
  import opened Wrappers
  import opened Strings
  import opened Schemas
  import opened Utils

  /** Level 1: the plan and the title of the section being written. */
  type L1Renderer = (ResearchActionPlan, string) -> string
  /** Level 2: the plan, the section index, the paper so far and its token budget. */
  type L2Renderer<-P> = (ResearchActionPlan, int, P, int) -> string
  /** Level 3: the section index, the research and its token budget. */
  type L3Renderer<-R> = (int, R, int) -> string

  /** `paper_structure[curr_section]` lies outside the list. */
  datatype IndexError = SectionOutOfRange(index: int, length: nat)

  /** The model whose context limit bounds the writing prompt. */
  const WritingModel: Model := Gpt4_8K

  /** Python's `xs[i]`: a negative index counts from the end, and an index
      outside `-|xs| .. |xs| - 1` raises. */
  function PyIndex<T>(xs: seq<T>, i: int): (r: Option<T>)
    ensures r.Some? <==> -|xs| <= i < |xs|
    ensures r.Some? ==> r.value == xs[i % |xs|]
  {
    if 0 <= i < |xs| then Some(xs[i])
    else if -|xs| <= i < 0 then Some(xs[|xs| + i])
    else None
  }

  /** Level 2's budget out of what level 1 leaves: half of it, rounded down
      (Python's `//`, also for a negative remainder). */
  function L2Budget(remaining: int): (b: int)
    ensures 2 * b <= remaining < 2 * b + 2
  {
    remaining / 2
  }

  /** Level 3's first budget: the rest, so that the two budgets add up to the
      remainder and level 3 gets the odd token. */
  function L3InitialBudget(remaining: int): (b: int)
    ensures L2Budget(remaining) + b == remaining
    ensures L2Budget(remaining) <= b <= L2Budget(remaining) + 1
  {
    remaining - L2Budget(remaining)
  }

  /** Level 3's budget once level 2 has used `used` tokens: the first budget
      plus whatever level 2 left unused (less, when level 2 overran), which
      comes to the remainder minus what level 2 used. */
  function L3Budget(remaining: int, used: int): (b: int)
    ensures b == remaining - used
    ensures used <= L2Budget(remaining) ==> b >= L3InitialBudget(remaining)
    ensures used > L2Budget(remaining) ==> b < L3InitialBudget(remaining)
  {
    L3InitialBudget(remaining) + (L2Budget(remaining) - used)
  }

  /** The writing prompt in closed form: level 1 for the section's title, then
      level 2 with half of what level 1 leaves of the 8000-token limit, then
      level 3 with that remainder less what level 2 used. */
  function WritingPrompt<P, R>(plan: ResearchActionPlan, paper: P, currSection: int, research: R,
                               tokens: TokenCounter, l1: L1Renderer, l2: L2Renderer<P>, l3: L3Renderer<R>)
    : (r: Result<string, IndexError>)
    ensures r.Ok? <==> -|plan.paperStructure| <= currSection < |plan.paperStructure|
    ensures r.Err? ==> r.error == SectionOutOfRange(currSection, |plan.paperStructure|)
  {
    match PyIndex(plan.paperStructure, currSection)
    case None => Err(SectionOutOfRange(currSection, |plan.paperStructure|))
    case Some(title) =>
      var text1 := l1(plan, title);
      var remaining := 8000 - tokens(WritingModel, text1);
      var text2 := l2(plan, currSection, paper, L2Budget(remaining));
      Ok(text1 + text2 + l3(currSection, research, remaining - tokens(WritingModel, text2)))
  }

  /** `render_writing_prompt`, step by step as the source computes it. */
  method RenderWritingPrompt<P, R>(plan: ResearchActionPlan, paper: P, currSection: int, research: R,
                                   tokens: TokenCounter, l1: L1Renderer, l2: L2Renderer<P>, l3: L3Renderer<R>)
    returns (r: Result<string, IndexError>)
    ensures r == WritingPrompt(plan, paper, currSection, research, tokens, l1, l2, l3)
  {
    var totalTokens := WritingModel.Data().maxContext;
    var title := PyIndex(plan.paperStructure, currSection);
    if title.None? {
      return Err(SectionOutOfRange(currSection, |plan.paperStructure|));
    }
    var l1Text := l1(plan, title.value);
    totalTokens := totalTokens - tokens(WritingModel, l1Text);
    var l2MaxTokens := L2Budget(totalTokens);
    var l3MaxTokens := L3InitialBudget(totalTokens);
    var l2Text := l2(plan, currSection, paper, l2MaxTokens);
    var l2ActualTokens := tokens(WritingModel, l2Text);
    l3MaxTokens := l3MaxTokens + (l2MaxTokens - l2ActualTokens);
    assert l3MaxTokens == L3Budget(totalTokens, l2ActualTokens);
    var l3Text := l3(currSection, research, l3MaxTokens);
    r := Ok(l1Text + l2Text + l3Text);
    PromptAssembly(plan, paper, currSection, research, tokens, l1, l2, l3);
  }

  /** The prompt is exactly the three levels in order, so it begins with level 1
      rendered in full, whatever its size: an oversized level 1 leaves both other
      budgets at or below zero and raises nothing. */
  lemma PromptAssembly<P, R>(plan: ResearchActionPlan, paper: P, currSection: int, research: R,
                             tokens: TokenCounter, l1: L1Renderer, l2: L2Renderer<P>, l3: L3Renderer<R>)
    requires -|plan.paperStructure| <= currSection < |plan.paperStructure|
    ensures var title := PyIndex(plan.paperStructure, currSection).value;
      var text1 := l1(plan, title);
      var remaining := 8000 - tokens(WritingModel, text1);
      var text2 := l2(plan, currSection, paper, L2Budget(remaining));
      var text3 := l3(currSection, research, L3Budget(remaining, tokens(WritingModel, text2)));
      && WritingPrompt(plan, paper, currSection, research, tokens, l1, l2, l3) == Ok(text1 + text2 + text3)
      && StartsWith(text1 + text2 + text3, text1)
      && (remaining <= 0 ==> L2Budget(remaining) <= 0 && L3InitialBudget(remaining) <= 0)
  {
  }

  /** Level 2 sees only the plan, the section index, the paper and its budget,
      and level 3 only the section index, the research and its budget: two
      papers for which level 2 renders the same text give the same prompt. */
  lemma PaperOnlyThroughL2<P, R>(plan: ResearchActionPlan, paper1: P, paper2: P, currSection: int, research: R,
                                 tokens: TokenCounter, l1: L1Renderer, l2: L2Renderer<P>, l3: L3Renderer<R>)
    requires forall budget :: l2(plan, currSection, paper1, budget) == l2(plan, currSection, paper2, budget)
    ensures WritingPrompt(plan, paper1, currSection, research, tokens, l1, l2, l3)
         == WritingPrompt(plan, paper2, currSection, research, tokens, l1, l2, l3)
  {
  }
}
