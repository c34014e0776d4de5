/**
 * The fine-tune dataset builder of pkg/cmd/fine-tuner/fine-tuner.go: every
 * issue row whose labels parse and include an `area/` or `type/` label becomes
 * a three-message chat prompt whose last message is the expected answer, a
 * compact JSON object; prompts are kept while their token counts fit a budget
 * of 100000. Also the command and flag checks of the same file, and the
 * prompt types the other two builders of the package share.
 */
module FineTuner {
  import opened Common
  import opened Strings
  import opened Seqs
  import opened TokenBudget

  const MaxTokens: nat := 100000
  const AvailableCommands: seq<string> := ["gen-dataset"]

  datatype PromptMessage = PromptMessage(role: string, content: string)

  /** A chat prompt of the fine-tuning file: its messages, in order. */
  datatype PromptTemplate = PromptTemplate(messages: seq<PromptMessage>)

  /** A row of `SELECT id, title, description, labels FROM issues WHERE processed = 0 AND id IN (…)`. */
  datatype IssueRow = IssueRow(id: int, title: string, description: string, labels: string)

  /** The label parser, json.Marshal of a prompt and the cl100k tokenizer, each with its failure. */
  datatype Services = Services(
    parse: string -> Option<seq<string>>,        // json.Unmarshal into []string
    marshal: PromptTemplate -> Option<string>,   // json.Marshal(prompt)
    encode: string -> Option<nat>)               // len(tokens) of enc.Encode

  // ---------------------------------------------------------------- labels

  predicate IsArea(name: string) {
    HasPrefix(name, "area/")
  }

  predicate IsType(name: string) {
    HasPrefix(name, "type/")
  }

  /** fmt.Sprintf(`"%s"`, s). */
  function Quote(s: string): string {
    "\"" + s + "\""
  }

  function QuoteAll(ss: seq<string>): seq<string> {
    seq(|ss|, i requires 0 <= i < |ss| => Quote(ss[i]))
  }

  lemma QuoteAllAppend(a: seq<string>, b: seq<string>)
    ensures QuoteAll(a + b) == QuoteAll(a) + QuoteAll(b)
  {
    assert forall i :: 0 <= i < |a + b| ==> QuoteAll(a + b)[i] == (QuoteAll(a) + QuoteAll(b))[i];
  }

  /** The text between the quotes is the quoted string. */
  lemma QuoteInjective(a: string, b: string)
    ensures Quote(a) == Quote(b) <==> a == b
  {
    assert a == Quote(a)[1..|Quote(a)| - 1];
    assert b == Quote(b)[1..|Quote(b)| - 1];
  }

  lemma AreaIsNotType(name: string)
    requires IsArea(name)
    ensures !IsType(name)
  {
    assert name[0] == 'a';
  }

  /** One more parsed label extends the list of its kind by it, quoted. */
  lemma LabelsStep(ps: seq<string>, i: nat)
    requires i < |ps|
    ensures QuoteAll(Filter(ps[..i + 1], IsArea)) == QuoteAll(Filter(ps[..i], IsArea)) + (if IsArea(ps[i]) then [Quote(ps[i])] else [])
    ensures QuoteAll(Filter(ps[..i + 1], IsType)) == QuoteAll(Filter(ps[..i], IsType)) + (if IsType(ps[i]) then [Quote(ps[i])] else [])
  {
    var name := ps[i];
    assert ps[..i + 1] == ps[..i] + [name];
    FilterAppend(ps[..i], [name], IsArea);
    FilterAppend(ps[..i], [name], IsType);
    assert Filter([name], IsArea) == if IsArea(name) then [name] else [];
    assert Filter([name], IsType) == if IsType(name) then [name] else [];
    QuoteAllAppend(Filter(ps[..i], IsArea), Filter([name], IsArea));
    QuoteAllAppend(Filter(ps[..i], IsType), Filter([name], IsType));
  }

  /** What getLabelsFromIssueLabels returns, written with Filter. */
  function AreaAndTypeLabels(labels: string, parse: string -> Option<seq<string>>): Result<(seq<string>, seq<string>), string>
  {
    if labels == "" then Ok(([], []))
    else match parse(labels)
      case None => Err("cannot unmarshal labels")
      case Some(ps) => Ok((QuoteAll(Filter(ps, IsArea)), QuoteAll(Filter(ps, IsType))))
  }

  /**
   * getLabelsFromIssueLabels: an empty label string gives two empty lists, a
   * string that is not a JSON array of strings an error; otherwise the
   * `area/` labels and the `type/` labels, each in double quotes, in order.
   */
  method GetLabelsFromIssueLabels(labels: string, parse: string -> Option<seq<string>>)
    returns (r: Result<(seq<string>, seq<string>), string>)
    ensures r == AreaAndTypeLabels(labels, parse)
  {
    if labels == "" {
      return Ok(([], []));
    }
    var parsed := parse(labels);
    if parsed.None? {
      return Err("cannot unmarshal labels");
    }
    var ps := parsed.value;
    var areaLabels: seq<string> := [];
    var typeLabels: seq<string> := [];
    var i := 0;
    while i < |ps|
      invariant 0 <= i <= |ps|
      invariant areaLabels == QuoteAll(Filter(ps[..i], IsArea))
      invariant typeLabels == QuoteAll(Filter(ps[..i], IsType))
    {
      var name := ps[i];
      LabelsStep(ps, i);
      if IsArea(name) {
        AreaIsNotType(name);
        areaLabels := areaLabels + [Quote(name)];
      } else if IsType(name) {
        typeLabels := typeLabels + [Quote(name)];
      }
      i := i + 1;
    }
    assert ps[..i] == ps;
    return Ok((areaLabels, typeLabels));
  }

  /** The list of one kind holds, quoted, exactly the parsed labels of that kind. */
  lemma QuotedKind(ps: seq<string>, kind: string -> bool)
    ensures forall x :: x in QuoteAll(Filter(ps, kind)) ==> exists l :: l in ps && kind(l) && x == Quote(l)
    ensures forall l :: l in ps && kind(l) ==> Quote(l) in QuoteAll(Filter(ps, kind))
  {
    var f := Filter(ps, kind);
    var q := QuoteAll(f);
    forall x | x in q ensures exists l :: l in ps && kind(l) && x == Quote(l) {
      var i :| 0 <= i < |q| && q[i] == x;
      assert f[i] in ps && kind(f[i]) && x == Quote(f[i]);
    }
    forall l | l in ps && kind(l) ensures Quote(l) in q {
      var k :| 0 <= k < |ps| && ps[k] == l;
      assert l in f;
      var m :| 0 <= m < |f| && f[m] == l;
      assert q[m] == Quote(l);
    }
  }

  /**
   * The two lists partition the recognised labels: each holds, quoted,
   * exactly the parsed labels of its kind, and no entry is in both.
   */
  lemma LabelsPartition(labels: string, parse: string -> Option<seq<string>>)
    requires labels != "" && parse(labels).Some?
    ensures var ps := parse(labels).value;
      var area := AreaAndTypeLabels(labels, parse).value.0;
      var types := AreaAndTypeLabels(labels, parse).value.1;
      && (forall x :: x in area ==> exists l :: l in ps && IsArea(l) && x == Quote(l))
      && (forall x :: x in types ==> exists l :: l in ps && IsType(l) && x == Quote(l))
      && (forall l :: l in ps && IsArea(l) ==> Quote(l) in area)
      && (forall l :: l in ps && IsType(l) ==> Quote(l) in types)
      && (forall x :: x in area ==> x !in types)
  {
    var ps := parse(labels).value;
    QuotedKind(ps, IsArea);
    QuotedKind(ps, IsType);
    var area, types := QuoteAll(Filter(ps, IsArea)), QuoteAll(Filter(ps, IsType));
    assert AreaAndTypeLabels(labels, parse) == Ok((area, types));
    forall x | x in area ensures x !in types {
      var a :| a in ps && IsArea(a) && x == Quote(a);
      AreaIsNotType(a);
      forall t | t in ps && IsType(t) ensures x != Quote(t) {
        QuoteInjective(a, t);
      }
    }
  }

  // ---------------------------------------------------------------- the prompt

  /** The instructions that open the system message, up to the type list. */
  const Instructions: string :=
    "\n\t\t\tYou are an expert Grafana issues categorizer. \n\t\t\tYou are provided with a Grafana issue. "
    + "\n\t\t\tYou will categorize the issue into one of the provided list of types and areas. "
    + "\n\n\t\t\tIt is possible that there are multiple areas and types for a given issue or none at all. "
    + "\n\t\t\tIn that case you should return an empty array for the specific field."
    + "\n\n\t\t\tThe output should be a valid json object with the following fields: "
    + "\n\t\t\t* id: The id of the current issue \n\t\t\t* areaLabel: The area label of the current issue "
    + "\n\t\t\t* typeLabel: The type of the current issue \n\n\t\t\t### Start of list of types\n\t\t\t"

  /** The text between the type list and the area list. */
  const TypesToAreas: string :=
    "\n\t\t\t### End of list of types\n\n\t\t\t\n\t\t\t### Start of list of areas\n\t\t\tThis is the list of areas:\n\t\t\t"

  /** The text after the area list. */
  const AreasEnd: string := "\n\t\t\t### End of list of areas\n\t\t\t"

  /** The system message: the instructions, then the type list, then the area list, one per line. */
  function SystemMessage(labels: seq<string>, types: seq<string>): PromptMessage
  {
    PromptMessage("system", Instructions + Join(types, "\n") + TypesToAreas + Join(labels, "\n") + AreasEnd)
  }

  /** The user message. The `\n\n` after "title" and "description" is a backslash-n pair, not a line break. */
  function UserContent(title: string, description: string): string
  {
    "\n\t\t\tIssue title\\n\\n " + title + "\n\t\t\tIssue description\\n\\n " + description + "\n\t\t"
  }

  /**
   * The answer as the raw string literal of lines 180-184 writes it, before
   * whitespace is stripped, cut where whitespace starts and ends.
   */
  function RawAnswer(id: int, area: seq<string>, types: seq<string>): string
  {
    "{" + ("\n\t\t\t" + ("\"id\":" + (" " + (Itoa(id) + ("," + ("\n\t\t\t" + ("\"areaLabel\":" + (" " + ("[" + (Join(area, ",")
      + ("]," + ("\n\t\t\t" + ("\"typeLabel\":" + (" " + ("[" + (Join(types, ",") + ("]" + ("\n\t\t" + "}"))))))))))))))))))
  }

  /** The answer message's content: every newline, tab and space removed. */
  function Answer(id: int, area: seq<string>, types: seq<string>): (r: string)
    ensures forall i :: 0 <= i < |r| ==> !IsWhitespace(r[i])
  {
    var raw := RawAnswer(id, area, types);
    StripWhitespaceRemoves(raw);
    StripWhitespace(raw)
  }

  lemma AnswerKeys()
    ensures RemoveWhitespace("{") == "{" && RemoveWhitespace(",") == "," && RemoveWhitespace("[") == "["
    ensures RemoveWhitespace("],") == "]," && RemoveWhitespace("]") == "]" && RemoveWhitespace("}") == "}"
  {
    RemoveWhitespaceKeeps("{");
    RemoveWhitespaceKeeps(",");
    RemoveWhitespaceKeeps("[");
    RemoveWhitespaceKeeps("],");
    RemoveWhitespaceKeeps("]");
    RemoveWhitespaceKeeps("}");
  }

  lemma IdName()
    ensures RemoveWhitespace("\"id\":") == "\"id\":"
  {
    RemoveWhitespaceKeeps("\"id\":");
  }

  lemma AreaName()
    ensures RemoveWhitespace("\"areaLabel\":") == "\"areaLabel\":"
  {
    RemoveWhitespaceKeeps("\"areaLabel\":");
  }

  lemma TypeName()
    ensures RemoveWhitespace("\"typeLabel\":") == "\"typeLabel\":"
  {
    RemoveWhitespaceKeeps("\"typeLabel\":");
  }

  lemma AnswerSpaces()
    ensures RemoveWhitespace("\n\t\t\t") == "" && RemoveWhitespace(" ") == "" && RemoveWhitespace("\n\t\t") == ""
  {
    RemoveWhitespaceDrops("\n\t\t\t");
    RemoveWhitespaceDrops(" ");
    RemoveWhitespaceDrops("\n\t\t");
  }

  /** Stripping the raw answer piece by piece. */
  lemma AnswerPieces(id: int, area: seq<string>, types: seq<string>)
    ensures Answer(id, area, types) ==
      "{" + ("\"id\":" + (Itoa(id) + ("," + ("\"areaLabel\":" + ("[" + (RemoveWhitespace(Join(area, ","))
        + ("]," + ("\"typeLabel\":" + ("[" + (RemoveWhitespace(Join(types, ",")) + ("]" + "}")))))))))))
  {
    AnswerKeys();
    IdName();
    AreaName();
    TypeName();
    AnswerSpaces();
    ItoaHasNoWhitespace(id);
    var ja, jt := Join(area, ","), Join(types, ",");
    var r11 := "]" + ("\n\t\t" + "}");
    var r10 := jt + r11;
    var r9 := "[" + r10;
    var r8 := "\"typeLabel\":" + (" " + r9);
    var r7 := "]," + ("\n\t\t\t" + r8);
    var r6 := ja + r7;
    var r5 := "[" + r6;
    var r4 := "\"areaLabel\":" + (" " + r5);
    var r3 := "," + ("\n\t\t\t" + r4);
    var r2 := Itoa(id) + r3;
    var r1 := "\"id\":" + (" " + r2);
    StripWhitespaceRemoves("{" + ("\n\t\t\t" + r1));
    RemoveWhitespaceStep("{", "\n\t\t\t", r1);
    RemoveWhitespaceStep("\"id\":", " ", r2);
    RemoveWhitespaceAppend(Itoa(id), r3);
    RemoveWhitespaceStep(",", "\n\t\t\t", r4);
    RemoveWhitespaceStep("\"areaLabel\":", " ", r5);
    RemoveWhitespaceKey("[", r6);
    RemoveWhitespaceAppend(ja, r7);
    RemoveWhitespaceStep("],", "\n\t\t\t", r8);
    RemoveWhitespaceStep("\"typeLabel\":", " ", r9);
    RemoveWhitespaceKey("[", r10);
    RemoveWhitespaceAppend(jt, r11);
    RemoveWhitespaceStep("]", "\n\t\t", "}");
  }

  /**
   * The answer is the compact JSON object `{"id":…,"areaLabel":[…],"typeLabel":[…]}`;
   * the labels inside it lose their whitespace too.
   */
  lemma AnswerCompact(id: int, area: seq<string>, types: seq<string>)
    ensures Answer(id, area, types) ==
      "{\"id\":" + Itoa(id) + ",\"areaLabel\":[" + RemoveWhitespace(Join(area, ","))
        + "],\"typeLabel\":[" + RemoveWhitespace(Join(types, ",")) + "]}"
  {
    AnswerPieces(id, area, types);
    MergePieces(Itoa(id), RemoveWhitespace(Join(area, ",")), RemoveWhitespace(Join(types, ",")));
  }

  lemma MergePieces(n: string, a: string, t: string)
    ensures "{" + ("\"id\":" + (n + ("," + ("\"areaLabel\":" + ("[" + (a + ("]," + ("\"typeLabel\":" + ("[" + (t + ("]" + "}")))))))))))
         == "{\"id\":" + n + ",\"areaLabel\":[" + a + "],\"typeLabel\":[" + t + "]}"
  {
    var k, l2, l3, e := "{\"id\":", ",\"areaLabel\":[", "],\"typeLabel\":[", "]}";
    var r5 := t + e;
    var r4 := l3 + r5;
    var r3 := a + r4;
    var r2 := l2 + r3;
    var r1 := n + r2;
    // the raw pieces, merged literal by literal from the right
    assert "]" + "}" == e;
    Assoc("\"typeLabel\":", "[", r5);
    Assoc("],", "\"typeLabel\":[", r5);
    assert "]," + "\"typeLabel\":[" == l3;
    Assoc("\"areaLabel\":", "[", r3);
    Assoc(",", "\"areaLabel\":[", r3);
    assert "," + "\"areaLabel\":[" == l2;
    Assoc("{", "\"id\":", r1);
    assert "{" + "\"id\":" == k;
    // the left-nested sum, regrouped to the right
    Assoc(k + n + l2 + a + l3, t, e);
    Assoc(k + n + l2 + a, l3, r5);
    Assoc(k + n + l2, a, r4);
    Assoc(k + n, l2, r3);
    Assoc(k, n, r2);
  }

  /** The prompt of a row: system, user, then the answer, which this builder also sends as "system". */
  function PromptFor(system: PromptMessage, row: IssueRow, area: seq<string>, types: seq<string>): PromptTemplate
  {
    PromptTemplate([system, PromptMessage("user", UserContent(row.title, row.description)),
                    PromptMessage("system", Answer(row.id, area, types))])
  }

  /**
   * What the row loop makes of one row before the budget check: rows whose
   * labels do not parse, rows with neither kind of label and prompts that
   * cannot be marshalled or encoded are skipped.
   */
  function CandidateOf(row: IssueRow, system: PromptMessage, svc: Services): Candidate<PromptTemplate>
  {
    match AreaAndTypeLabels(row.labels, svc.parse)
    case Err(_) => Skipped
    case Ok((area, types)) =>
      if area == [] && types == [] then Skipped
      else
        var prompt := PromptFor(system, row, area, types);
        match svc.marshal(prompt)
        case None => Skipped
        case Some(js) =>
          match svc.encode(js)
          case None => Skipped
          case Some(n) => Priced(prompt, n)
  }

  /** The part of the row loop's body before the budget check. */
  method BuildCandidate(row: IssueRow, system: PromptMessage, svc: Services) returns (c: Candidate<PromptTemplate>)
    ensures c == CandidateOf(row, system, svc)
  {
    var parsed := GetLabelsFromIssueLabels(row.labels, svc.parse);
    if parsed.Err? {
      return Skipped;
    }
    var (areaLabels, typeLabels) := parsed.value;
    if areaLabels == [] && typeLabels == [] {
      return Skipped;
    }
    var prompt := PromptFor(system, row, areaLabels, typeLabels);
    var promptJson := svc.marshal(prompt);
    if promptJson.None? {
      return Skipped;
    }
    var tokens := svc.encode(promptJson.value);
    if tokens.None? {
      return Skipped;
    }
    return Priced(prompt, tokens.value);
  }

  function Candidates(rows: seq<IssueRow>, system: PromptMessage, svc: Services): seq<Candidate<PromptTemplate>>
  {
    seq(|rows|, i requires 0 <= i < |rows| => CandidateOf(rows[i], system, svc))
  }

  /**
   * The row loop of generateDataset: the prompts it keeps are the budget
   * selection over the rows' candidates, their tokens total at most
   * 100000, and totalIssues counts them.
   */
  method SelectPrompts(rows: seq<IssueRow>, system: PromptMessage, svc: Services)
    returns (prompts: seq<PromptTemplate>, totalTokens: nat, totalIssues: nat)
    ensures var sel := Take(Candidates(rows, system, svc), MaxTokens, 0);
      prompts == sel.accepted && totalTokens == sel.totalTokens
    ensures totalIssues == |prompts| && totalTokens <= MaxTokens
  {
    ghost var cs := Candidates(rows, system, svc);
    prompts, totalTokens, totalIssues := [], 0, 0;
    var i := 0;
    TakeStart(cs, MaxTokens);
    while i < |rows|
      invariant 0 <= i <= |rows| && |cs| == |rows|
      invariant totalIssues == |prompts|
      invariant Selecting(cs, MaxTokens, i, prompts, totalTokens)
    {
      var candidate := BuildCandidate(rows[i], system, svc);
      var stop;
      prompts, totalTokens, totalIssues, stop := Consume(cs, MaxTokens, i, candidate, prompts, totalTokens, totalIssues);
      if stop {
        return;
      }
      i := i + 1;
    }
    TakeDone(cs, MaxTokens, totalTokens, prompts);
  }

  /** generateDataset after its files are read: the system prompt lists the types and areas, then the row loop runs. */
  method GenerateDataset(rows: seq<IssueRow>, labels: seq<string>, types: seq<string>, svc: Services)
    returns (prompts: seq<PromptTemplate>, totalTokens: nat, totalIssues: nat)
    ensures var sel := Take(Candidates(rows, SystemMessage(labels, types), svc), MaxTokens, 0);
      prompts == sel.accepted && totalTokens == sel.totalTokens
    ensures totalIssues == |prompts| && totalTokens <= MaxTokens
  {
    var system := SystemMessage(labels, types);
    prompts, totalTokens, totalIssues := SelectPrompts(rows, system, svc);
  }

  /**
   * Every kept prompt comes from a row with parseable labels of at least one
   * kind, and is that row's system, user and answer messages.
   */
  lemma AcceptedPrompt(rows: seq<IssueRow>, system: PromptMessage, svc: Services, k: nat) returns (j: nat)
    requires k < |Take(Candidates(rows, system, svc), MaxTokens, 0).accepted|
    ensures j < |rows| && AreaAndTypeLabels(rows[j].labels, svc.parse).Ok?
    ensures var (area, kinds) := AreaAndTypeLabels(rows[j].labels, svc.parse).value;
      && (area != [] || kinds != [])
      && Take(Candidates(rows, system, svc), MaxTokens, 0).accepted[k] == PromptFor(system, rows[j], area, kinds)
  {
    var cs := Candidates(rows, system, svc);
    var sel := Take(cs, MaxTokens, 0);
    j := ItemSource(cs[..sel.scanned], k);
  }

  // ---------------------------------------------------------------- command and flags

  /** getCommand: the first argument, which must be one of the available commands. */
  function GetCommand(args: seq<string>): (r: Result<string, string>)
    ensures r.Ok? <==> |args| > 0 && args[0] == "gen-dataset"
    ensures r.Ok? ==> r.value == args[0]
  {
    if |args| == 0 then Err("command is required")
    else if args[0] !in AvailableCommands then Err("invalid command " + args[0])
    else Ok(args[0])
  }

  datatype Flags = Flags(issuesDb: string, idsFile: string, openAiKey: string)

  /** validateFlags: the database path, the API key, then the ids file, in that order. */
  function ValidateFlags(f: Flags, stat: string -> Stat): Option<string>
  {
    if f.issuesDb == "" then Some("issueDbFile is required")
    else if stat(f.issuesDb) == NotExist then Some("issueDbFile " + f.issuesDb + " does not exist")
    else if stat(f.issuesDb) == StatError then Some("stat " + f.issuesDb)
    else if f.openAiKey == "" then Some("OPENAI_API_KEY env var is required")
    else if f.idsFile == "" then Some("idsFile is required")
    else if stat(f.idsFile) == NotExist then Some("idsFile " + f.idsFile + " does not exist")
    else if stat(f.idsFile) == StatError then Some("stat " + f.idsFile)
    else None
  }

  /**
   * The flags pass exactly when both files exist and the key is set; a
   * missing database is reported before anything about the key or the ids
   * file.
   */
  lemma ValidateFlagsAccepts(f: Flags, stat: string -> Stat)
    ensures ValidateFlags(f, stat) == None <==>
      f.issuesDb != "" && stat(f.issuesDb) == Exists && f.openAiKey != "" && f.idsFile != "" && stat(f.idsFile) == Exists
    ensures f.issuesDb == "" ==> ValidateFlags(f, stat) == Some("issueDbFile is required")
    ensures f.issuesDb != "" && stat(f.issuesDb) == Exists && f.openAiKey == "" ==>
      ValidateFlags(f, stat) == Some("OPENAI_API_KEY env var is required")
  {
  }
}
