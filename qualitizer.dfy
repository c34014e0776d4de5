/**
 * The quality dataset builder of pkg/cmd/fine-tuner/qualitizer.go: two
 * lists of issues, the categorizable ones and the ones missing information,
 * each become system, user and assistant prompts whose answer is the compact
 * object `{"id":…,"isCategorizable":true|false}`. Each list gets half of the
 * 100000-token budget. The categorizable prompts are written first, one JSON
 * document per line.
 */
module Qualitizer {
  import opened Common
  import opened Strings
  import opened TokenBudget
  import opened FineTuner
  import Categorizer

  /** A row of `SELECT id, title, description FROM issues WHERE processed = 0 AND id IN (…)`. */
  datatype IssueText = IssueText(id: int, title: string, description: string)

  /** strconv.FormatBool. */
  function FormatBool(b: bool): string {
    if b then "true" else "false"
  }

  const IdText := "\n            Issue ID: "
  const TitleText := "\n            Issue title: "
  const DescriptionText := "\n            Issue description:\\n\\n "
  const UserEndText := "\n        "

  /** The user message of lines 120-124. The `\n\n` after "description:" is a backslash-n pair. */
  function UserContent(row: IssueText): string
  {
    IdText + Itoa(row.id) + TitleText + row.title + DescriptionText + row.description + UserEndText
  }

  /**
   * The answer of lines 126-129 before whitespace is stripped, for the id text
   * `n` and the verdict text `v`; cut where whitespace starts and ends.
   */
  function RawAnswer(n: string, v: string): string
  {
    "{" + ("\n            " + ("\"id\":" + (" " + (n + ("," + ("\n            " + ("\"isCategorizable\":" + ("  " + (v
      + ("\n        " + "}"))))))))))
  }

  /** The assistant answer: every newline, tab and space removed. */
  function Answer(id: int, isCategorizable: bool): (r: string)
    ensures forall i :: 0 <= i < |r| ==> !IsWhitespace(r[i])
  {
    var raw := RawAnswer(Itoa(id), FormatBool(isCategorizable));
    StripWhitespaceRemoves(raw);
    StripWhitespace(raw)
  }

  lemma AnswerKeys()
    ensures RemoveWhitespace("{") == "{" && RemoveWhitespace(",") == "," && RemoveWhitespace("}") == "}"
    ensures RemoveWhitespace("\"id\":") == "\"id\":"
  {
    RemoveWhitespaceKeeps("{");
    RemoveWhitespaceKeeps(",");
    RemoveWhitespaceKeeps("}");
    RemoveWhitespaceKeeps("\"id\":");
  }

  lemma VerdictName()
    ensures RemoveWhitespace("\"isCategorizable\":") == "\"isCategorizable\":"
  {
    RemoveWhitespaceKeeps("\"isCategorizable\":");
  }

  lemma AnswerSpaces()
    ensures RemoveWhitespace("\n            ") == "" && RemoveWhitespace(" ") == "" && RemoveWhitespace("  ") == ""
  {
    RemoveWhitespaceDrops("\n            ");
    RemoveWhitespaceDrops(" ");
    RemoveWhitespaceDrops("  ");
  }

  lemma AnswerEnd()
    ensures RemoveWhitespace("\n        " + "}") == "}"
  {
    RemoveWhitespaceDrops("\n        ");
    RemoveWhitespaceKeeps("}");
    RemoveWhitespaceAppend("\n        ", "}");
  }

  lemma VerdictHasNoWhitespace(b: bool)
    ensures RemoveWhitespace(FormatBool(b)) == FormatBool(b)
  {
    RemoveWhitespaceKeeps(FormatBool(b));
  }

  /** Stripping the raw answer piece by piece. */
  lemma AnswerPieces(n: string, v: string)
    requires RemoveWhitespace(n) == n && RemoveWhitespace(v) == v
    ensures RemoveWhitespace(RawAnswer(n, v)) ==
      "{" + ("\"id\":" + (n + ("," + ("\"isCategorizable\":" + (v + "}")))))
  {
    AnswerKeys();
    VerdictName();
    AnswerSpaces();
    AnswerEnd();
    var r6 := "\n        " + "}";
    var r5 := v + r6;
    var r4 := "\"isCategorizable\":" + ("  " + r5);
    var r3 := "," + ("\n            " + r4);
    var r2 := n + r3;
    var r1 := "\"id\":" + (" " + r2);
    RemoveWhitespaceStep("{", "\n            ", r1);
    RemoveWhitespaceStep("\"id\":", " ", r2);
    RemoveWhitespaceAppend(n, r3);
    RemoveWhitespaceStep(",", "\n            ", r4);
    RemoveWhitespaceStep("\"isCategorizable\":", "  ", r5);
    RemoveWhitespaceAppend(v, r6);
  }

  lemma MergeAnswer(n: string, v: string)
    ensures "{" + ("\"id\":" + (n + ("," + ("\"isCategorizable\":" + (v + "}")))))
         == "{\"id\":" + n + ",\"isCategorizable\":" + v + "}"
  {
  }

  /** The answer is the compact object `{"id":<id>,"isCategorizable":<true|false>}`. */
  lemma AnswerCompact(id: int, isCategorizable: bool)
    ensures Answer(id, isCategorizable) == "{\"id\":" + Itoa(id) + ",\"isCategorizable\":" + FormatBool(isCategorizable) + "}"
  {
    var n, v := Itoa(id), FormatBool(isCategorizable);
    ItoaHasNoWhitespace(id);
    VerdictHasNoWhitespace(isCategorizable);
    StripWhitespaceRemoves(RawAnswer(n, v));
    AnswerPieces(n, v);
    MergeAnswer(n, v);
  }

  /** The prompt of a row: the quality system prompt, the issue, then the verdict as "assistant". */
  function PromptFor(system: string, row: IssueText, isCategorizable: bool): PromptTemplate
  {
    PromptTemplate([PromptMessage("system", system),
                    PromptMessage("user", UserContent(row)),
                    PromptMessage("assistant", Answer(row.id, isCategorizable))])
  }

  /** A row before the budget check: prompts that cannot be marshalled or encoded are skipped. */
  function CandidateOf(row: IssueText, system: string, isCategorizable: bool, svc: Services): Candidate<PromptTemplate>
  {
    var prompt := PromptFor(system, row, isCategorizable);
    match svc.marshal(prompt)
    case None => Skipped
    case Some(js) =>
      match svc.encode(js)
      case None => Skipped
      case Some(n) => Priced(prompt, n)
  }

  function Candidates(rows: seq<IssueText>, system: string, isCategorizable: bool, svc: Services): seq<Candidate<PromptTemplate>>
  {
    seq(|rows|, i requires 0 <= i < |rows| => CandidateOf(rows[i], system, isCategorizable, svc))
  }

  /** The prompts one call of generatePrompts keeps under its budget. */
  function Selected(rows: seq<IssueText>, system: string, isCategorizable: bool, max: int, svc: Services): Selection<PromptTemplate>
  {
    Take(Candidates(rows, system, isCategorizable, svc), max, 0)
  }

  /** The part of the row loop's body before the budget check. */
  method BuildCandidate(row: IssueText, system: string, isCategorizable: bool, svc: Services) returns (c: Candidate<PromptTemplate>)
    ensures c == CandidateOf(row, system, isCategorizable, svc)
  {
    var prompt := PromptTemplate([PromptMessage("system", system), PromptMessage("user", UserContent(row))]);
    var jsonResponse := RawAnswer(Itoa(row.id), FormatBool(isCategorizable));
    jsonResponse := RemoveChar(jsonResponse, '\n');
    jsonResponse := RemoveChar(jsonResponse, '\t');
    jsonResponse := RemoveChar(jsonResponse, ' ');
    prompt := prompt.(messages := prompt.messages + [PromptMessage("assistant", jsonResponse)]);
    assert prompt == PromptFor(system, row, isCategorizable);
    var promptJson := svc.marshal(prompt);
    if promptJson.None? {
      return Skipped;
    }
    var tokens := svc.encode(promptJson.value);
    if tokens.None? {
      return Skipped;
    }
    return Priced(prompt, tokens.value);
  }

  /**
   * generatePrompts: the prompts it returns are the budget selection over the
   * rows' candidates, and their tokens total at most `maxTokens`.
   */
  method GeneratePrompts(rows: seq<IssueText>, system: string, isCategorizable: bool, maxTokens: int, svc: Services)
    returns (prompts: seq<PromptTemplate>)
    ensures prompts == Take(Candidates(rows, system, isCategorizable, svc), maxTokens, 0).accepted
  {
    ghost var cs := Candidates(rows, system, isCategorizable, svc);
    var totalTokens: nat := 0;
    var totalIssues: nat := 0;
    prompts := [];
    var i := 0;
    TakeStart(cs, maxTokens);
    while i < |rows|
      invariant 0 <= i <= |rows| && |cs| == |rows|
      invariant totalIssues == |prompts|
      invariant Selecting(cs, maxTokens, i, prompts, totalTokens)
    {
      var candidate := BuildCandidate(rows[i], system, isCategorizable, svc);
      var stop;
      prompts, totalTokens, totalIssues, stop := Consume(cs, maxTokens, i, candidate, prompts, totalTokens, totalIssues);
      if stop {
        return;
      }
      i := i + 1;
    }
    TakeDone(cs, maxTokens, totalTokens, prompts);
  }

  /** The tokens of the kept prompts: what the loop's totalTokens ends at. */
  lemma SelectedWithinBudget(rows: seq<IssueText>, system: string, isCategorizable: bool, max: nat, svc: Services)
    ensures var sel := Selected(rows, system, isCategorizable, max, svc);
      sel.totalTokens == Cost(Candidates(rows, system, isCategorizable, svc)[..sel.scanned]) && sel.totalTokens <= max
  {
  }

  /** Every kept prompt is a row's system, user and assistant messages with the call's verdict. */
  lemma SelectedPrompt(rows: seq<IssueText>, system: string, isCategorizable: bool, max: int, svc: Services, k: nat)
    returns (j: nat)
    requires k < |Selected(rows, system, isCategorizable, max, svc).accepted|
    ensures j < |rows|
    ensures Selected(rows, system, isCategorizable, max, svc).accepted[k] == PromptFor(system, rows[j], isCategorizable)
  {
    var cs := Candidates(rows, system, isCategorizable, svc);
    var sel := Take(cs, max, 0);
    j := ItemSource(cs[..sel.scanned], k);
    assert cs[..sel.scanned][j] == cs[j] == CandidateOf(rows[j], system, isCategorizable, svc);
    PricedPrompt(rows[j], system, isCategorizable, svc);
  }

  /** A priced candidate carries the row's prompt. */
  lemma PricedPrompt(row: IssueText, system: string, isCategorizable: bool, svc: Services)
    requires CandidateOf(row, system, isCategorizable, svc).Priced?
    ensures CandidateOf(row, system, isCategorizable, svc).item == PromptFor(system, row, isCategorizable)
  {
  }

  /** The answer of a prompt ends in `true}` exactly when the prompt says the issue is categorizable. */
  predicate SaysCategorizable(p: PromptTemplate) {
    |p.messages| == 3 && |p.messages[2].content| >= 5
      && p.messages[2].content[|p.messages[2].content| - 5..] == "true}"
  }

  lemma VerdictOfAnswer(system: string, row: IssueText, isCategorizable: bool)
    ensures SaysCategorizable(PromptFor(system, row, isCategorizable)) <==> isCategorizable
  {
    AnswerCompact(row.id, isCategorizable);
    var head := "{\"id\":" + Itoa(row.id) + ",\"isCategorizable\":";
    var s := Answer(row.id, isCategorizable);
    if isCategorizable {
      assert s == head + "true}";
      assert s[|s| - 5..] == "true}";
    } else {
      assert s == head + "false}";
      assert s[|s| - 5] == 'a';
    }
  }

  /**
   * generateQualitizerDataset after its id files are read: each of the two
   * calls gets half of the budget, and the output has the categorizable
   * prompts first, then the missing-info prompts.
   */
  method GenerateQualitizerDataset(categorizable: seq<IssueText>, missingInfo: seq<IssueText>, system: string, svc: Services)
    returns (finalPrompts: seq<PromptTemplate>, content: Result<string, string>)
    ensures finalPrompts == Selected(categorizable, system, true, MaxTokens / 2, svc).accepted
                          + Selected(missingInfo, system, false, MaxTokens / 2, svc).accepted
    ensures content == Categorizer.JsonLines(finalPrompts, svc.marshal)
  {
    var prompts := GeneratePrompts(categorizable, system, true, MaxTokens / 2, svc);
    finalPrompts := prompts;
    prompts := GeneratePrompts(missingInfo, system, false, MaxTokens / 2, svc);
    finalPrompts := finalPrompts + prompts;
    content := Categorizer.WriteJsonLines(finalPrompts, svc.marshal);
  }

  /** The two halves together stay within the budget. */
  lemma DatasetWithinBudget(categorizable: seq<IssueText>, missingInfo: seq<IssueText>, system: string, svc: Services)
    ensures Selected(categorizable, system, true, MaxTokens / 2, svc).totalTokens
          + Selected(missingInfo, system, false, MaxTokens / 2, svc).totalTokens <= MaxTokens
  {
    SelectedWithinBudget(categorizable, system, true, MaxTokens / 2, svc);
    SelectedWithinBudget(missingInfo, system, false, MaxTokens / 2, svc);
  }

  /**
   * In the dataset every categorizable prompt comes before every
   * missing-info prompt: position k says categorizable exactly when it is
   * one of the first call's prompts. The file is the first call's lines
   * followed by the second call's.
   */
  lemma CategorizableFirst(categorizable: seq<IssueText>, missingInfo: seq<IssueText>, system: string, svc: Services)
    ensures var first := Selected(categorizable, system, true, MaxTokens / 2, svc).accepted;
      var second := Selected(missingInfo, system, false, MaxTokens / 2, svc).accepted;
      && (forall k :: 0 <= k < |first + second| ==> (SaysCategorizable((first + second)[k]) <==> k < |first|))
      && (Categorizer.JsonLines(first, svc.marshal).Ok? ==>
            Categorizer.JsonLines(first + second, svc.marshal) ==
              Categorizer.After(Categorizer.JsonLines(first, svc.marshal).value, Categorizer.JsonLines(second, svc.marshal)))
  {
    var first := Selected(categorizable, system, true, MaxTokens / 2, svc).accepted;
    var second := Selected(missingInfo, system, false, MaxTokens / 2, svc).accepted;
    forall k | 0 <= k < |first + second| ensures SaysCategorizable((first + second)[k]) <==> k < |first| {
      if k < |first| {
        var j := SelectedPrompt(categorizable, system, true, MaxTokens / 2, svc, k);
        VerdictOfAnswer(system, categorizable[j], true);
      } else {
        var j := SelectedPrompt(missingInfo, system, false, MaxTokens / 2, svc, k - |first|);
        VerdictOfAnswer(system, missingInfo[j], false);
      }
    }
    Categorizer.JsonLinesAppend(first, second, svc.marshal);
  }
}
