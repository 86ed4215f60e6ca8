/**
 * `write_paper`: the paper is written one planned section at a time. For each
 * section in turn the writing prompt is rendered from the paper written so far,
 * the section text is generated from the prompt, and that text is appended.
 *
 * Text generation (a language-model call) is a parameter, and so are the
 * renderers and the token counter of the writing prompt.
 */
module Writer {
  import opened Wrappers
  import opened Sequences
  import opened Schemas
  import opened Utils
  import opened PromptRenderer

  /** `generate_section_content`: the section text generated for a prompt. */
  type Generator = string -> string

  /** The paper under construction: its sections, in the order they were written. */
  class Paper {
    var sections: seq<string>

    /** A paper with no sections. */
    constructor ()
      ensures sections == []
    {
      sections := [];
    }

    /** `sections.append`: add one section after the others. */
    method Append(section: string)
      modifies this
      ensures sections == old(sections) + [section]
    {
      sections := sections + [section];
    }
  }

  /** Everything a pass of the loop consults besides the paper itself. */
  datatype Setting<!R> = Setting(
    plan: ResearchActionPlan,
    research: R,
    tokens: TokenCounter,
    l1: L1Renderer,
    l2: L2Renderer<seq<string>>,
    l3: L3Renderer<R>,
    generate: Generator)

  /** The prompt for section `k`, rendered from the sections written before it;
      every planned section has one. */
  function SectionPrompt<R>(s: Setting<R>, written: seq<string>, k: nat): (prompt: string)
    requires k < |s.plan.paperStructure|
  {
    WritingPrompt(s.plan, written, k, s.research, s.tokens, s.l1, s.l2, s.l3).value
  }

  /** The sections after the first `n` passes: each pass generates from the
      prompt for the next section and appends the result. */
  function Assemble<R>(s: Setting<R>, n: nat): (sections: seq<string>)
    requires n <= |s.plan.paperStructure|
    ensures |sections| == n
    decreases n
  {
    if n == 0 then []
    else
      var written := Assemble(s, n - 1);
      written + [s.generate(SectionPrompt(s, written, n - 1))]
  }

  /** The first `k` passes are the start of any longer run: the loop only
      appends, it never changes a section already written. */
  lemma {:induction false} AssemblePrefix<R>(s: Setting<R>, k: nat, n: nat)
    requires k <= n <= |s.plan.paperStructure|
    ensures Assemble(s, n)[..k] == Assemble(s, k)
    decreases n
  {
    if k < n {
      AssemblePrefix(s, k, n - 1);
      var written := Assemble(s, n - 1);
      assert Assemble(s, n)[..n - 1] == written;
      assert Assemble(s, n)[..k] == written[..k];
    } else {
      assert Assemble(s, n)[..n] == Assemble(s, n);
    }
  }

  /** Section `k` of a paper after `n` passes is the text generated for the
      prompt of section `k`, rendered from sections `0 .. k - 1`. */
  lemma AssembleEntry<R>(s: Setting<R>, k: nat, n: nat)
    requires k < n <= |s.plan.paperStructure|
    ensures Assemble(s, n)[k] == s.generate(SectionPrompt(s, Assemble(s, k), k))
  {
    AssemblePrefix(s, k + 1, n);
    assert Assemble(s, n)[k] == Assemble(s, n)[..k + 1][k];
  }

  /** The finished paper: one section per planned section, section `k` generated
      from the prompt for `k` over the sections before it. */
  lemma FinishedPaper<R>(s: Setting<R>)
    ensures var paper := Assemble(s, |s.plan.paperStructure|);
      && |paper| == |s.plan.paperStructure|
      && forall k :: 0 <= k < |paper| ==> paper[k] == s.generate(SectionPrompt(s, paper[..k], k))
  {
    var n := |s.plan.paperStructure|;
    var paper := Assemble(s, n);
    forall k | 0 <= k < n
      ensures paper[k] == s.generate(SectionPrompt(s, paper[..k], k))
    {
      AssembleEntry(s, k, n);
      AssemblePrefix(s, k, n);
    }
  }

  /** `write_paper` with the prompt taken as the renderer returns it (see
      `WritePaperAsWritten`): starting from an empty paper and section 0, one
      pass per planned section. */
  method WritePaper<R>(s: Setting<R>) returns (paper: Paper)
    ensures fresh(paper)
    ensures paper.sections == Assemble(s, |s.plan.paperStructure|)
  {
    paper := new Paper();
    var currSection := 0;
    while currSection < |s.plan.paperStructure|
      invariant 0 <= currSection <= |s.plan.paperStructure|
      invariant paper.sections == Assemble(s, currSection)
    {
      var prompt := RenderWritingPrompt(s.plan, paper.sections, currSection, s.research, s.tokens, s.l1, s.l2, s.l3);
      var newSection := s.generate(prompt.value);
      paper.Append(newSection);
      currSection := currSection + 1;
    }
  }

  /** What goes wrong in `write_paper` as written. */
  datatype WriteError =
    | NotTwoCharacters(rendered: string)  // the rendered string does not have exactly two characters
    | NoSections                          // a one-character string has no `sections`

  /** Unpacking `prompt, curr_paper = s` for a string `s`: it needs exactly two
      characters, each then bound as a one-character string. */
  function UnpackString(s: string): (r: Result<(string, string), WriteError>)
    ensures r.Ok? <==> |s| == 2
    ensures r.Ok? ==> |r.value.0| == 1 && |r.value.1| == 1 && r.value.0 + r.value.1 == s
    ensures r.Err? ==> r.error == NotTwoCharacters(s)
  {
    if |s| == 2 then Ok(([s[0]], [s[1]])) else Err(NotTwoCharacters(s))
  }

  /** `write_paper` as written: the string the renderer returns is unpacked into
      a prompt and a paper, and the "paper" (a string) is then asked for its
      sections. A plan without sections gives the empty paper. */
  function WritePaperAsWritten<R>(s: Setting<R>): (r: Result<seq<string>, WriteError>)
    ensures r.Ok? <==> |s.plan.paperStructure| == 0
    ensures r.Ok? ==> r.value == []
  {
    if |s.plan.paperStructure| == 0 then Ok([])
    else
      var rendered := WritingPrompt(s.plan, [], 0, s.research, s.tokens, s.l1, s.l2, s.l3).value;
      match UnpackString(rendered)
      case Err(e) => Err(e)
      case Ok(_) => Err(NoSections)
  }

  /** As written, no plan with a section yields a paper, whatever the
      renderers and the generator produce, while the corrected loop yields one
      section per planned section for the same setting. */
  lemma AsWrittenNeverWrites<R>(s: Setting<R>)
    requires |s.plan.paperStructure| > 0
    ensures WritePaperAsWritten(s).Err?
    ensures |Assemble(s, |s.plan.paperStructure|)| == |s.plan.paperStructure|
  {
  }
}
