/**
 * The model registry, the research action plan and the search-result record,
 * with the search result's two text renderings.
 */
module Schemas {
  import opened Numerals
  import opened Strings
  import opened Wrappers

  /** One entry of the model table. Per-token prices are left out. */
  datatype ModelData = ModelData(officialName: string, maxContext: int)

  /** The four language models the system knows. */
  datatype Model = Gpt4_8K | Gpt4_32K | Gpt3_5Turbo4K | Gpt3_5Turbo16K
  {
    /** The constant table entry of this model; every context limit is positive. */
    function Data(): (d: ModelData)
      ensures d.maxContext > 0
    {
      match this
      case Gpt4_8K => ModelData("gpt-4", 8000)
      case Gpt4_32K => ModelData("gpt-4-32k", 32000)
      case Gpt3_5Turbo4K => ModelData("gpt-3.5-turbo", 4000)
      case Gpt3_5Turbo16K => ModelData("gpt-3.5-turbo-16k", 16000)
    }
  }

  lemma ModelTable()
    ensures Gpt4_8K.Data() == ModelData("gpt-4", 8000)
    ensures Gpt4_32K.Data() == ModelData("gpt-4-32k", 32000)
    ensures Gpt3_5Turbo4K.Data() == ModelData("gpt-3.5-turbo", 4000)
    ensures Gpt3_5Turbo16K.Data() == ModelData("gpt-3.5-turbo-16k", 16000)
  {
  }

  /** The context limits grow 4K < 8K < 16K < 32K. */
  lemma ContextOrder()
    ensures Gpt3_5Turbo4K.Data().maxContext < Gpt4_8K.Data().maxContext
    ensures Gpt4_8K.Data().maxContext < Gpt3_5Turbo16K.Data().maxContext
    ensures Gpt3_5Turbo16K.Data().maxContext < Gpt4_32K.Data().maxContext
  {
  }

  /** No two models share an official name, so the name identifies the model. */
  lemma OfficialNamesDistinct(m1: Model, m2: Model)
    ensures m1.Data().officialName == m2.Data().officialName ==> m1 == m2
  {
  }

  /** What the user asked for, parsed into a plan; read-only once created. */
  datatype ResearchActionPlan = ResearchActionPlan(
    topicOfResearch: string,
    purposeOfContext: string,
    primaryAudience: string,
    typeOfPaperToBeWritten: string,
    paperStructure: seq<string>,
    researchPlan: seq<string>,
    searchQueries: seq<string>)

  /** `str(keywords)` for a list of strings: `['a', 'b']`. */
  function KeywordsRepr(keywords: seq<string>): string
  {
    "[" + QuotedList(keywords) + "]"
  }

  function QuotedList(keywords: seq<string>): string
  {
    if keywords == [] then ""
    else if |keywords| == 1 then "'" + keywords[0] + "'"
    else "'" + keywords[0] + "', " + QuotedList(keywords[1..])
  }

  /** A fetched source. The estimated cost is a float in the source; it is kept
      here as the text Python would print for it. */
  datatype SearchResult = SearchResult(
    title: string,
    link: string,
    description: string,
    keywords: seq<string>,
    summary: string,
    content: string,
    cost: string)
  {
    /** The six values `__str__` and `to_prompt` print, one per line. */
    function Fields(): seq<string>
    {
      [title, link, description, summary, KeywordsRepr(keywords), "$" + cost]
    }

    /** `__str__`: the fields, each on its own line, then an empty line. */
    function ToStr(): string
    {
      Lines(Fields()) + "\n"
    }

    /** `to_prompt(source_number)`: the number and a colon, then the fields as
        in `__str__`. */
    function ToPrompt(sourceNumber: int): string
    {
      IntToString(sourceNumber) + ":\n" + Lines(Fields()) + "\n"
    }

    predicate OneLineFields()
    {
      '\n' !in title && '\n' !in link && '\n' !in description && '\n' !in summary
      && '\n' !in cost && (forall i :: 0 <= i < |keywords| ==> '\n' !in keywords[i])
    }
  }

  lemma {:induction false} QuotedListOneLine(keywords: seq<string>)
    requires forall i :: 0 <= i < |keywords| ==> '\n' !in keywords[i]
    ensures '\n' !in QuotedList(keywords)
  {
    if |keywords| > 1 {
      QuotedListOneLine(keywords[1..]);
    }
  }

  /** `to_prompt(n)` is the source number and a colon on a line of their own,
      followed by `__str__`. */
  lemma ToPromptIsNumberedStr(r: SearchResult, n: int)
    ensures r.ToPrompt(n) == IntToString(n) + ":\n" + r.ToStr()
  {
  }

  /** When no field holds a line break, `__str__` is the six fields on six lines
      (title, link, description, summary, keywords, `$` and cost) followed by an
      empty line: splitting it at line breaks gives the fields back. */
  lemma StrLines(r: SearchResult)
    requires r.OneLineFields()
    ensures Split(r.ToStr(), '\n')
      == [r.title, r.link, r.description, r.summary, KeywordsRepr(r.keywords), "$" + r.cost, "", ""]
  {
    QuotedListOneLine(r.keywords);
    SplitLines(r.Fields(), "\n");
    assert "\n" == "" + ['\n'] + "";
    SplitCons("", "", '\n');
    SplitNone("", '\n');
  }

  /** The numbered prompt's first line is the number and a colon, and the number
      reads back with `int`; the remaining lines are those of `__str__`. */
  lemma PromptLines(r: SearchResult, n: int)
    ensures var lines := Split(r.ToPrompt(n), '\n');
      lines[0] == IntToString(n) + ":" && lines[1..] == Split(r.ToStr(), '\n')
      && ParseInt(lines[0][..|lines[0]| - 1]) == Some(n)
  {
    var head := IntToString(n) + ":";
    IntToStringOneLine(n);
    ToPromptIsNumberedStr(r, n);
    assert r.ToPrompt(n) == head + ['\n'] + r.ToStr() by {
      assert ":\n" == ":" + ['\n'];
    }
    SplitCons(head, r.ToStr(), '\n');
    assert head[..|head| - 1] == IntToString(n);
    ParseIntToString(n);
  }

  lemma IntToStringOneLine(n: int)
    ensures '\n' !in IntToString(n) + ":"
  {
    var ds := NatToString(if n < 0 then -n else n);
    assert forall i :: 0 <= i < |ds| ==> ds[i] != '\n';
  }
}
