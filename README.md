# GPT-Researcher core, modelled in Dafny

GPT-Researcher writes a research paper one section at a time with a language
model. This project models the deterministic core of that program and proves
properties of the model:

- **Writing prompt** (`PromptRenderer.dfy`, from `render_writing_prompt`). The
  writing model's 8000-token limit is reduced by the size of the level-1
  instructions, which are never shortened. The rest is split in half between
  level 2 (the sections already written) and level 3 (the source notes). Any
  tokens level 2 leaves unused go to level 3. The prompt is the three levels in
  order. The three level renderers and the token counter are parameters.
- **Summary parser** (`Utils.dfy`, from `parse_raw_summary`). A line-by-line
  state machine that has a header/bullet mode and a relevancy mode. It yields
  the title, the authors, the date, the details and the section scores, or the
  `ValueError` a malformed score line raises.
- **Whitespace normaliser** (`Utils.dfy`, from `clean_content`).
- **Model fit and model choice** (`Utils.dfy`, from `fits_in_model` and the
  loop of `generate_search_results`). Short pages are skipped. Each page gets
  the 4K model if its summary prompt fits, else the 16K model, else it is
  dropped.
- **The model table, the plan and the search-result text** (`Schemas.dfy`).
- **The paper loop** (`Writer.dfy`, from `write_paper`). A `Paper` object whose
  `sections` grow by one generated section per planned section.

Supporting modules:

- `Strings.dfy` models the Python `str` operations the core uses.
- `Numerals.dfy` models `str(int)` and `int(str)`.
- `Sequences.dfy` holds generic sequence facts.
- `Wrappers.dfy` defines `Option` and `Result`.

Foreign code is passed in as function-typed parameters:

- tiktoken's token count: `TokenCounter`, keyed by model;
- the level renderers `get_l1/l2/l3_write_prompt`;
- the summary prompt and `prepare_source_material_for_summary_prompt`;
- text generation.

Results that depend on the network (a page fetch that raised) arrive as
`Option` values.

Three points about the writing prompt follow the code as it stands:

- The total budget is not a parameter. It is the fixed 8000-token limit of
  `gpt-4` (prompt_renderer.py:7).
- Nothing is raised when level 1 alone exceeds the budget. The remainder and
  both level budgets then simply go to zero or below
  (`PromptRenderer.PromptAssembly`).
- Nothing in the code checks that the final prompt fits the budget; that
  depends on the level renderers, and token counts are not additive over
  concatenation. The model therefore claims only the budget arithmetic.

## Model

| member | source | states |
|---|---|---|
| Schemas.Model.Data | schemas.py:11-15 | every model in the table has a positive context limit |
| Schemas.ModelTable | schemas.py:12-15 | the official names and limits: `gpt-4` 8000, `gpt-4-32k` 32000, `gpt-3.5-turbo` 4000, `gpt-3.5-turbo-16k` 16000 |
| Schemas.ContextOrder | schemas.py:12-15 | the context limits grow 4K < 8K < 16K < 32K |
| Schemas.OfficialNamesDistinct | schemas.py:12-15 | two models with the same official name are the same model |
| Schemas.ToPromptIsNumberedStr | schemas.py:36-40 | `to_prompt(n)` is `str(n) + ":\n"` followed by `__str__()` |
| Schemas.StrLines | schemas.py:36-37 | when no field holds a line break, `__str__` splits at line breaks into title, link, description, summary, keyword list, `$` plus cost and two empty strings, so it ends in a blank line |
| Schemas.PromptLines | schemas.py:39-40 | the numbered prompt's first line is the number and a colon, the number reads back with `int`, and its other lines are those of `__str__` |
| Schemas.QuotedListOneLine | schemas.py:37 | the printed keyword list holds no line break when no keyword does |
| Strings.Strip | utils.py:141 | `strip()` removes only leading and trailing whitespace: the result is the slice of the input that starts after the leading whitespace, everything before and after that slice is whitespace, and the result has no whitespace at either end |
| Strings.StripIsSlice | utils.py:141 | what `strip()` keeps is a contiguous slice of its input |
| Strings.StripNoop | utils.py:141 | `strip()` leaves a string with no whitespace at its ends unchanged |
| Strings.StripBetween | utils.py:82 | text with no whitespace at its ends, surrounded by whitespace, strips back to itself |
| Strings.TrimStart | utils.py:107 | `lstrip(cs)` removes a prefix made only of characters in `cs` and stops at a character outside `cs` |
| Strings.FieldAfter | utils.py:91 | `line.split(key)[1]` for a line that starts with `key` is the text after the key up to the next occurrence of the key: it is followed by the key or by the end of the line, and the key starts nowhere inside it |
| Strings.JoinSplit | utils.py:82 | joining the parts of `split(sep)` with `sep` gives the string back |
| Strings.SplitJoin | utils.py:106 | splitting a join of parts that do not hold the separator gives the parts back |
| Strings.Split | utils.py:82 | `split(sep)` yields at least one part, and no part holds the separator |
| Strings.Lower | utils.py:94 | `lower()` keeps the length, lowers each ASCII capital letter and leaves no capital |
| Strings.LowerIdempotent | utils.py:94 | lowering twice is lowering once |
| Strings.LowerEqualsAnyCase | utils.py:94 | `v.lower() == w`, for a `w` without capitals, holds exactly when `v` spells `w` with any of its letters in either case |
| Numerals.IntToStringShape | schemas.py:40 | `str(n)` is nonempty and made of digits and minus signs; it starts with a digit or a minus and ends in a digit |
| Numerals.ParseIntToString | utils.py:107 | `int(str(i)) == i` for every integer |
| Numerals.ParseIntRejects | utils.py:107 | `int` raises on the empty string, a lone sign, a trailing underscore, a doubled underscore and letters |
| Numerals.ParseIntExamples | utils.py:107 | `int` reads `"5"`, `"-12"` and the grouped `"1_0"` |
| Utils.CollapseRuns | utils.py:138 | `re.sub(c + "+", c, s)` leaves no two adjacent `c`s, keeps the first and last character, and is never longer than `s` |
| Utils.CollapseRunsAround | utils.py:138 | a character other than `c` stays in place and splits the collapsing: the text before it and the text after it are collapsed separately |
| Utils.CollapseRunsOfRun | utils.py:138 | a run of one or more `c`s becomes a single `c`; with `CollapseRunsAround` this determines the result for every string |
| Utils.CollapseRunsKeepsOthers | utils.py:138 | collapsing runs of `c` keeps every other character in order, and leaves a `c` exactly when `s` has one |
| Utils.CollapseRunsNoop | utils.py:144 | a string without runs of `c` is unchanged |
| Utils.CollapseRunsKeepsNoRun | utils.py:144 | collapsing spaces creates no new run of newlines |
| Utils.StripKeepsNoRun | utils.py:141 | stripping creates no run of a character |
| Utils.CleanContent | utils.py:136-146 | `clean_content` leaves no `"\n\n"`, no double space and no whitespace at either end, and is never longer than its input |
| Utils.CleanContentFixpoint | utils.py:136-146 | a text with no blank line, no double space and no whitespace at either end is left unchanged |
| Utils.CleanContentIdempotent | utils.py:136-146 | cleaning twice gives the same as cleaning once |
| Utils.VisibleCollapseRuns | utils.py:138 | collapsing runs of a whitespace character keeps every non-whitespace character, in order |
| Utils.VisibleStrip | utils.py:141 | `strip()` keeps every non-whitespace character, in order |
| Utils.CleanContentKeepsText | utils.py:136-146 | cleaning changes whitespace only: the non-whitespace characters of the page are kept, all of them and in order |
| Utils.FitsInModelMonotone | utils.py:35-38 | `fits_in_model` is the token count plus the padding within the model's limit, so less padding, or a larger model that counts no more tokens, keeps a fit |
| Utils.ChooseModel | utils.py:70-76 | the 4K model exactly when the prompt fits it with 100 tokens of padding; the 16K model exactly when it fits only that one; none, and the source is dropped, exactly when it fits neither |
| Utils.ChooseModelByLength | utils.py:70-76 | with one token count for both models, the choice is a threshold: up to 3900 tokens 4K, up to 15900 tokens 16K, beyond that dropped |
| Utils.SelectHit | utils.py:52-76 | a hit is kept exactly when its page was fetched, the cleaned page has at least 10 characters and the summary prompt, built with the 16K record, fits one of the two 3.5 models. A kept hit has the hit's title and link, the cleaned page as text and the model `ChooseModel` picks for that prompt, and it is admissible |
| Utils.ProcessHit | utils.py:52-78 | the body of the per-hit loop, step by step, keeps just what `SelectHit` keeps |
| Utils.GenerateSearchResults | utils.py:47-79 | the nested loop over queries and hits returns exactly the kept hits, in query order and then hit order, and each is admissible |
| Utils.SelectQueriesAdmissible | utils.py:47-79 | every kept source is admissible, and there are never more than there were hits |
| Utils.SelectQueriesAppend | utils.py:49-78 | selection keeps query order: the results for two runs of queries are the first run's followed by the second's |
| Utils.SummaryLines | utils.py:82 | one line per part of the stripped text split at line breaks, at least one; each line is its part stripped, so it holds no line break and no whitespace at either end |
| Utils.AuthorList | utils.py:93-97 | no authors exactly when the value lowers to "not found"; otherwise name `i` is comma-separated part `i` stripped, so it holds no comma and no whitespace at either end |
| Utils.NotFoundAnyCase | utils.py:94 | a value lowers to "not found" exactly when it is those nine characters with any of its letters in upper case |
| Utils.DateValue | utils.py:99-100 | the date is empty exactly when the value lowers to "not found" or is empty, and otherwise is the value itself |
| Utils.ScoreEntry | utils.py:106-107 | a relevancy line raises the unpacking error exactly when it does not split into two parts at `:`; it raises exactly when that happens or the stripped score is no integer; otherwise the section name is the first part after `lstrip("- ")` and `strip()`, so it holds no colon and no whitespace at either end, and the score is `int` of the stripped second part |
| Utils.ParseLine | utils.py:90-107 | one pass of the loop body is the transition `Step` of the line-by-line parser |
| Utils.RunLines | utils.py:89-108 | the loop over the lines, stopping at the first line that raises, returns the parser state of the whole run, or that error |
| Utils.ParseRawSummary | utils.py:81-112 | `parse_raw_summary` returns the summary built from the stripped lines of the raw text, or the first error raised |
| Utils.RunErrorSticks | utils.py:89-107 | once a line has raised, the remaining lines do not change the outcome |
| Utils.KeysExclusive | utils.py:90-103 | the keys `Title:`, `Author(s):`, `Date:`, `Relevancy:` and the `- ` marker begin with different characters, so a line starts with at most one |
| Utils.StepMode | utils.py:103-104 | a pass enters relevancy mode exactly at a `Relevancy:` line and never leaves it |
| Utils.StepDetails | utils.py:101-102 | a pass adds a detail exactly for a `- ` line outside relevancy mode |
| Utils.StepRelevancy | utils.py:105-107 | a pass in relevancy mode sets the score of a score line's section, overwriting any earlier score; outside it the scores are unchanged |
| Utils.StepFails | utils.py:105-107 | a pass raises exactly at a line in relevancy mode that holds `": "` but does not split into two parts at `:`, or whose score is not an integer |
| Utils.StepHeaders | utils.py:90-100 | a pass sets the title, authors or date exactly at a line with that key |
| Utils.RunDetails | utils.py:89-109 | the details are the `- ` lines before the first `Relevancy:` line, in input order, marker removed and stripped; the parser is in relevancy mode exactly if such a line occurred |
| Utils.RunRelevancy | utils.py:103-110 | the section scores are those of the score lines from the first `Relevancy:` line on, a later line for the same section winning |
| Utils.RunFailsIff | utils.py:105-107 | the parse succeeds exactly when every score line after the first `Relevancy:` line is well-formed |
| Utils.RunHeaders | utils.py:90-100 | each header field comes from the last line with its key, and is absent when no line has one |
| Utils.DetailLine | utils.py:101-102 | a line `- ` plus a stripped text is read as the detail with that text |
| Utils.ScoreLine | utils.py:105-107 | a line `- section: n`, for a section name without a colon, is read as that section with score `n` |
| Utils.LaidOutSummary | tests/test_utils.py:5-24 | stripped lines laid out as in the unit test parse successfully. The details are the two bullets in order and the scores are the two sections |
| Utils.IndentedSummaryLines | tests/test_utils.py:5-13 | a triple-quoted summary in the unit test's layout (a line break, each stripped line after the same run of spaces, a last line of just those spaces) yields exactly its lines |
| Utils.LaidOutRawSummary | tests/test_utils.py:5-24 | such an indented summary, with any stripped texts filled in, parses with its two details in order and its two section scores |
| Utils.WorkedExample | tests/test_utils.py:4-24 | the unit test's raw summary, indented by four spaces inside a triple-quoted literal, gives details `["Detail 1", "Detail 2"]` and scores `{"Section1": 5, "Section2": 3}` |
| PromptRenderer.PyIndex | prompt_renderer.py:10 | `paper_structure[curr_section]` succeeds exactly when the index is in `-len .. len - 1`, and then gives the element at the index taken modulo the length |
| PromptRenderer.L2Budget | prompt_renderer.py:14 | level 2 gets the floor of half the remainder, negative remainders included |
| PromptRenderer.L3InitialBudget | prompt_renderer.py:15 | the two budgets add up to the remainder, and level 3's is level 2's or one more |
| PromptRenderer.L3Budget | prompt_renderer.py:20-22 | after level 2, level 3's budget is the remainder minus what level 2 used: at least its first budget when level 2 stayed within its own, less when it overran |
| PromptRenderer.WritingPrompt | prompt_renderer.py:5-27 | the prompt fails only when the section index is out of range. Otherwise it is level 1, then level 2 with half of `8000 - Tokens(level 1)`, then level 3 with that remainder less `Tokens(level 2)` |
| PromptRenderer.RenderWritingPrompt | prompt_renderer.py:5-27 | the step-by-step reassignments of `total_tokens` and `l3_max_tokens` produce exactly `WritingPrompt` |
| PromptRenderer.PromptAssembly | prompt_renderer.py:9-27 | the prompt is level 1 + level 2 + level 3 in that order, so it begins with level 1 in full. An oversized level 1 raises nothing and leaves both budgets at or below zero |
| PromptRenderer.PaperOnlyThroughL2 | prompt_renderer.py:18-25 | the paper reaches the prompt only through level 2: two papers that level 2 renders alike give the same prompt |
| Writer.Paper.constructor | writer.py:28 | a new paper has no sections |
| Writer.Paper.Append | writer.py:33 | appending adds the section after the others and changes nothing else |
| Writer.Assemble | writer.py:30-35 | after `n` passes the paper has exactly `n` sections |
| Writer.AssemblePrefix | writer.py:33 | later passes only append: the first `k` sections never change |
| Writer.AssembleEntry | writer.py:31-33 | section `k` is the text generated for section `k`'s prompt, rendered from sections `0 .. k-1` |
| Writer.FinishedPaper | writer.py:27-36 | the finished paper has one section per planned section, and each is generated from its own prompt over the sections before it |
| Writer.WritePaper | writer.py:27-36 | the loop starts from an empty paper at section 0 and runs once per planned section. It leaves exactly the assembled sections in a new `Paper` |
| Writer.UnpackString | writer.py:31 | unpacking a string into two names succeeds exactly for two characters; each name gets one character, the first and the second in order; any other length gives the unpacking error for that string |
| Writer.WritePaperAsWritten | writer.py:27-36 | as written, `write_paper` returns a paper only for a plan with no sections, and that paper is empty |
| Writer.AsWrittenNeverWrites | writer.py:31-33 | as written, every plan with a section fails, whereas `WritePaper` gives one section per planned section |

## Findings

| source | as written | input that shows it | evidently intended | confidence | as-written member | corrected member |
|---|---|---|---|---|---|---|
| writer.py:31 | `prompt, curr_paper = render_writing_prompt(...)` tuple-unpacks the string that `render_writing_prompt` returns (prompt_renderer.py:27). Unpacking fails unless the prompt has exactly two characters. If it has two, `curr_paper` becomes a one-character string that has no `sections` to append to | any plan with at least one planned section | keep the rendered string as the prompt and keep appending to the same paper | high; not executed | Writer.WritePaperAsWritten, Writer.AsWrittenNeverWrites | Writer.WritePaper |

## Left out

- Token counting (tiktoken) is a parameter keyed by model. The model assumes nothing about it, in particular not additivity, so the model does not claim that the final prompt fits in 8000 tokens.
- The level-1/2/3 renderers and the prompt text are parameters, as are the level-of-detail compression and relevancy filtering behind them. `prompts.py` defines none of them.
- Cost estimation (`str_cost_analysis`, `est_cost_search_result`) is left out because it is floating-point pricing. The model table leaves out prices, and a search result's cost is kept as the text Python would print for it.
- `fetch_site_content`, `googlesearch`, `summarize_result`, `generate_section_content`, the OpenAI calls, `print(prompt)` and the `asyncio` call are I/O. A fetch that raised is a `None` page. Generated text comes from a `Generator` parameter.
- `gatherer.py`, `main.py`, `init_prompt_parser.py`, `gpt-jsontest.py` and the `__main__` blocks of utils.py and schemas.py are scripts and demo I/O.
- Strings.Strip and Strings.Lower cover only ASCII whitespace and ASCII case folding. Python also strips and lowers non-ASCII characters.
- Numerals.ParseInt does not model that Python's `int` also accepts non-ASCII digits.
- Schemas.KeywordsRepr does not model the escaping `repr` applies inside keywords: quotes, backslashes, line breaks, tabs and other control or non-printable characters. Python's `str(keywords)` therefore never holds a line break, whereas the model prints such characters raw; the keyword clause of `Schemas.StrLines` (no keyword holds a line break) is needed only because of this.
- The `SearchResultSchema(...)` call at utils.py:62-68 passes a `model` field the schema lacks and omits required fields. The model keeps the evident record (title, link, cleaned text, chosen model) as `Source`. The types `PaperSchema`, `SectionSchema` and `SearchResultSummary`, which writer.py, prompt_renderer.py and the tests import, are not defined in schemas.py. The paper is modelled by its list of sections, and research by a type parameter.
- The unit tests' two-argument call of `parse_raw_summary`, their `error` and `source_material` fields, the `total_tokens=` argument of `render_writing_prompt` and the awaited `write_paper` do not match the code, and are not modelled.
- Utils.WorkedExample states the test's raw summary as its lines joined after four spaces each (`TestRawSummary`); that this text equals the triple-quoted literal character by character is not itself proved.
- In `Writer.WritePaper` the paper reaches the level-2 renderer as its list of sections rather than as the object.
