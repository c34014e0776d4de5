/**
 * The categorizer dataset builder of pkg/cmd/fine-tuner/categorizer.go. An
 * issue row takes part when its labels parse. Its `area/` or `datasource/`
 * labels, filtered by the categories file, and its `type/` labels, filtered
 * by the types file, must both be non-empty and equally long. Such a row
 * becomes a system, user and assistant prompt, and also a question/context/
 * answer record. Prompts are kept while their token counts fit the 100000
 * budget, and the kept prompts are written one JSON document per line.
 */
module Categorizer {
  import opened Common
  import opened Strings
  import opened Seqs
  import opened TokenBudget
  import opened FineTuner

  /** What the row loop works from: prompts.CategorySystemPrompt and the lines of the categories and types files. */
  datatype Setup = Setup(systemPrompt: string, categories: seq<string>, types: seq<string>)

  /** The JsonPrompt record appended to the `.json` side file. */
  datatype JsonPrompt = JsonPrompt(question: string, context: string, answer: string, system: string)

  // ---------------------------------------------------------------- labels

  predicate IsCategory(name: string) {
    HasPrefix(name, "area/") || HasPrefix(name, "datasource/")
  }

  lemma CategoryIsNotType(name: string)
    requires IsCategory(name)
    ensures !IsType(name)
  {
    assert name[0] == 'a' || name[0] == 'd';
  }

  /** What this file's getLabelsFromIssueLabels returns: the labels of each kind, unquoted, in order. */
  function CategoryAndTypeLabels(labels: string, parse: string -> Option<seq<string>>): Result<(seq<string>, seq<string>), string>
  {
    if labels == "" then Ok(([], []))
    else match parse(labels)
      case None => Err("cannot unmarshal labels")
      case Some(ps) => Ok((Filter(ps, IsCategory), Filter(ps, IsType)))
  }

  /**
   * getLabelsFromIssueLabels of categorizer.go: no labels gives two empty
   * lists, a string that is not a JSON array of strings an error; otherwise
   * a label is a category when it starts with `area/` or `datasource/`, and
   * else a type when it starts with `type/`.
   */
  method GetLabelsFromIssueLabels(labels: string, parse: string -> Option<seq<string>>)
    returns (r: Result<(seq<string>, seq<string>), string>)
    ensures r == CategoryAndTypeLabels(labels, parse)
  {
    if labels == "" {
      return Ok(([], []));
    }
    var parsed := parse(labels);
    if parsed.None? {
      return Err("cannot unmarshal labels");
    }
    var ps := parsed.value;
    var categoryLabels: seq<string> := [];
    var typeLabels: seq<string> := [];
    var i := 0;
    while i < |ps|
      invariant 0 <= i <= |ps|
      invariant categoryLabels == Filter(ps[..i], IsCategory)
      invariant typeLabels == Filter(ps[..i], IsType)
    {
      var name := ps[i];
      FilterStep(ps, i, IsCategory);
      FilterStep(ps, i, IsType);
      if IsCategory(name) {
        CategoryIsNotType(name);
        categoryLabels := categoryLabels + [name];
      } else if IsType(name) {
        typeLabels := typeLabels + [name];
      }
      i := i + 1;
    }
    assert ps[..i] == ps;
    return Ok((categoryLabels, typeLabels));
  }

  /**
   * The two lists hold exactly the parsed labels of their kind, each in the
   * parsed order, and no label is in both.
   */
  lemma CategoryLabelsPartition(labels: string, parse: string -> Option<seq<string>>)
    requires labels != "" && parse(labels).Some?
    ensures var ps := parse(labels).value;
      var categories := CategoryAndTypeLabels(labels, parse).value.0;
      var types := CategoryAndTypeLabels(labels, parse).value.1;
      && (forall x :: x in categories <==> x in ps && IsCategory(x))
      && (forall x :: x in types <==> x in ps && IsType(x))
      && IsSubsequence(categories, ps) && IsSubsequence(types, ps)
      && (forall x :: x in categories ==> x !in types)
  {
    var ps := parse(labels).value;
    FilterMembers(ps, IsCategory);
    FilterMembers(ps, IsType);
    FilterIsSubsequence(ps, IsCategory);
    FilterIsSubsequence(ps, IsType);
    forall x | x in Filter(ps, IsCategory) ensures x !in Filter(ps, IsType) {
      CategoryIsNotType(x);
    }
  }

  /**
   * The labels a row trains on, or None when the row is skipped: its labels
   * do not parse, or after the allow-lists one list is empty or the two
   * differ in length.
   */
  function Eligible(row: IssueRow, setup: Setup, parse: string -> Option<seq<string>>): Option<(seq<string>, seq<string>)>
  {
    match CategoryAndTypeLabels(row.labels, parse)
    case Err(_) => None
    case Ok((pc, pt)) =>
      var c := Filter(pc, In(setup.categories));
      var t := Filter(pt, In(setup.types));
      if |c| == 0 || |t| == 0 || |c| != |t| then None else Some((c, t))
  }

  /**
   * A row trains on its allowed category and type labels, which are equally
   * many and at least one each; every one of them is a parsed label of its
   * kind that its file lists.
   */
  lemma EligibleLabels(row: IssueRow, setup: Setup, parse: string -> Option<seq<string>>)
    requires Eligible(row, setup, parse).Some?
    ensures row.labels != "" && parse(row.labels).Some?
    ensures var ps := parse(row.labels).value;
      var c := Eligible(row, setup, parse).value.0;
      var t := Eligible(row, setup, parse).value.1;
      && 0 < |c| == |t|
      && (forall x :: x in c <==> x in ps && IsCategory(x) && x in setup.categories)
      && (forall x :: x in t <==> x in ps && IsType(x) && x in setup.types)
  {
    var ps := parse(row.labels).value;
    FilterMembers(ps, IsCategory);
    FilterMembers(ps, IsType);
    FilterMembers(Filter(ps, IsCategory), In(setup.categories));
    FilterMembers(Filter(ps, IsType), In(setup.types));
  }

  // ---------------------------------------------------------------- JSON arrays

  /** What stringArrayToJsonArray returns: nothing at all for no labels, else a bracketed list of quoted labels. */
  function JsonArray(xs: seq<string>): string
  {
    if xs == [] then "" else "[" + Join(QuoteAll(xs), ",") + "]"
  }

  /** stringArrayToJsonArray: each label is quoted (without escaping) and the list bracketed. */
  method StringArrayToJsonArray(names: seq<string>) returns (r: string)
    ensures r == JsonArray(names)
  {
    if |names| == 0 {
      return "";
    }
    var jsonArray: seq<string> := [];
    var i := 0;
    while i < |names|
      invariant 0 <= i <= |names|
      invariant jsonArray == QuoteAll(names[..i])
    {
      QuoteAllAppend(names[..i], [names[i]]);
      assert names[..i + 1] == names[..i] + [names[i]];
      jsonArray := jsonArray + [Quote(names[i])];
      i := i + 1;
    }
    assert names[..i] == names;
    return "[" + Join(jsonArray, ",") + "]";
  }

  /**
   * A label JSON reads as written between quotes: no double quote, no
   * backslash (which JSON reads as the start of an escape) and no control
   * character (which JSON refuses inside a string).
   */
  predicate PlainText(t: string) {
    forall k :: 0 <= k < |t| ==> t[k] != '"' && t[k] != '\\' && t[k] >= ' '
  }

  /**
   * A quoted string at the head of `s`: its text up to the next double quote,
   * and what follows. This reader knows no escapes: a string holding a
   * backslash or a control character is refused rather than interpreted.
   */
  function ReadString(s: string): (r: Option<(string, string)>)
    ensures r.Some? ==> |r.value.1| < |s| && PlainText(r.value.0)
  {
    if |s| == 0 || s[0] != '"' then None
    else
      var j := IndexFrom(s, "\"", 1);
      if j < 0 || !PlainText(s[1..j]) then None else Some((s[1..j], s[j + 1..]))
  }

  /** Comma-separated quoted strings: the inside of a JSON array of escape-free strings. */
  function DecodeItems(s: string): Option<seq<string>>
    decreases |s|
  {
    match ReadString(s)
    case None => None
    case Some((x, rest)) =>
      if rest == "" then Some([x])
      else if rest[0] != ',' then None
      else match DecodeItems(rest[1..])
        case None => None
        case Some(xs) => Some([x] + xs)
  }

  /** The inverse of JsonArray: the empty text is no labels, else a bracketed list. */
  function DecodeJsonArray(s: string): Option<seq<string>>
  {
    if s == "" then Some([])
    else if |s| < 2 || s[0] != '[' || s[|s| - 1] != ']' then None
    else DecodeItems(s[1..|s| - 1])
  }

  lemma ReadQuoted(x: string, rest: string)
    requires PlainText(x)
    ensures ReadString(Quote(x) + rest) == Some((x, rest))
  {
    var s := Quote(x) + rest;
    var j := IndexFrom(s, "\"", 1);
    assert OccursAt(s, "\"", |x| + 1);
    forall k | 1 <= k <= |x| ensures !OccursAt(s, "\"", k) {
      assert s[k..k + 1] == [x[k - 1]];
    }
    assert j == |x| + 1;
    assert s[1..|x| + 1] == x;
    assert s[|x| + 2..] == rest;
  }

  lemma {:induction false} DecodeJoin(xs: seq<string>)
    requires xs != []
    requires forall k :: 0 <= k < |xs| ==> PlainText(xs[k])
    ensures DecodeItems(Join(QuoteAll(xs), ",")) == Some(xs)
  {
    if |xs| == 1 {
      ReadQuoted(xs[0], "");
      assert Quote(xs[0]) + "" == Quote(xs[0]);
      assert Join(QuoteAll(xs), ",") == Quote(xs[0]);
      assert xs == [xs[0]];
    } else {
      var tail := Join(QuoteAll(xs[1..]), ",");
      assert QuoteAll(xs)[1..] == QuoteAll(xs[1..]);
      assert Join(QuoteAll(xs), ",") == Quote(xs[0]) + ("," + tail);
      ReadQuoted(xs[0], "," + tail);
      assert ("," + tail)[1..] == tail;
      DecodeJoin(xs[1..]);
      assert [xs[0]] + xs[1..] == xs;
    }
  }

  /** Labels free of quotes, backslashes and control characters read back from their JSON array exactly. */
  lemma JsonArrayRoundTrip(xs: seq<string>)
    requires forall k :: 0 <= k < |xs| ==> PlainText(xs[k])
    ensures DecodeJsonArray(JsonArray(xs)) == Some(xs)
  {
    if xs != [] {
      DecodeJoin(xs);
      var s := JsonArray(xs);
      assert s[1..|s| - 1] == Join(QuoteAll(xs), ",");
    }
  }

  /**
   * The same does not hold for a label with a backslash: `["a\b"]` is an
   * escape to JSON (it reads "a" and a backspace), and the escape-free reader
   * refuses it instead of giving back the label.
   */
  lemma BackslashNotRoundTripped()
    ensures DecodeJsonArray(JsonArray(["a\\b"])) == None
  {
    var s := JsonArray(["a\\b"]);
    assert s == "[\"a\\b\"]";
    var inner := s[1..|s| - 1];
    assert inner == "\"a\\b\"";
    assert OccursAt(inner, "\"", 4);
    forall k | 1 <= k < 4 ensures !OccursAt(inner, "\"", k) {
      assert inner[k..k + 1] == [inner[k]];
    }
    assert inner[1..4][1] == '\\';
  }

  /** Only the empty list gives the empty text, which is not a JSON array. */
  lemma JsonArrayEmpty(xs: seq<string>)
    ensures JsonArray(xs) == "" <==> xs == []
  {
  }

  // ---------------------------------------------------------------- prompt text

  // The fixed pieces of the prompt texts, in the order they appear.
  const UserIdText := "\n\t\t\tIssue ID: "
  const UserTitleText := "\n\t\t\tIssue title: "
  const UserDescriptionText := "\n\t\t\tIssue description:\\n\\n "
  const UserQuestionText := "\n\n\t\t\tAccording to the following list, which category and type do you think this issue belongs to?"
    + "\n\n\t\t\t\t\tList of categories:\n\t\t\t\t\t"
  const UserTypesText := "\n\t\t\t\t\tList of types: "
  const QuestionIdText := "\n\t\t\t\t\t\tIssue ID: "
  const QuestionTitleText := "\n\t\t\t\t\t\tIssue title: "
  const QuestionDescriptionText := "\n\t\t\t\t\t\tIssue description:\\n\\n "
  const QuestionEndText := "\n\n\t\t\t\t\t\tAccording to the following list, which category and type do you think this issue belongs to?\n\t\t\t"
  const ContextCategoriesText := "\n\t\t\t\t\t\tList of categories:\n\t\t\t\t\t\t"
  const ContextTypesText := "\n\t\t\t\t\t\tList of types: "
  const AnswerIdText := "{\n\t\t\t\t\"id\": "
  const AnswerCategoryText := ",\n\t\t\t\t\"categoryLabel\":"
  const AnswerTypeText := ",\n\t\t\t\t\"typeLabel\": "
  const AnswerEndText := "\n\t\t\t}"

  /** The user message of lines 93-103. The `\n\n` after "description:" is a backslash-n pair. */
  function UserContent(setup: Setup, row: IssueRow): string
  {
    UserIdText + Itoa(row.id) + UserTitleText + row.title + UserDescriptionText + row.description
      + UserQuestionText + Join(setup.categories, "\n") + UserTypesText + Join(setup.types, "\n")
  }

  function Question(row: IssueRow): string
  {
    QuestionIdText + Itoa(row.id) + QuestionTitleText + row.title + QuestionDescriptionText + row.description + QuestionEndText
  }

  function Context(setup: Setup): string
  {
    ContextCategoriesText + Join(setup.categories, "\n") + ContextTypesText + Join(setup.types, "\n")
  }

  /** The answer of the side-file record, as written, whitespace included. */
  function RecordAnswer(id: int, c: seq<string>, t: seq<string>): string
  {
    AnswerIdText + Itoa(id) + AnswerCategoryText + JsonArray(c) + AnswerTypeText + JsonArray(t) + AnswerEndText
  }

  /**
   * The assistant answer of lines 156-160 before whitespace is stripped, for
   * the id text `n` and the two JSON arrays; cut where whitespace starts and ends.
   */
  function RawResponse(n: string, jc: string, jt: string): string
  {
    "{" + ("\n\t\t\t" + ("\"id\":" + (" " + (n + ("," + ("\n\t\t\t" + ("\"categoryLabel\":" + (jc
      + ("," + ("\n\t\t\t" + ("\"typeLabel\":" + (" " + (jt + ("\n\t\t" + "}"))))))))))))))
  }

  /** The assistant answer: every newline, tab and space removed. */
  function Response(id: int, c: seq<string>, t: seq<string>): (r: string)
    ensures forall i :: 0 <= i < |r| ==> !IsWhitespace(r[i])
  {
    var raw := RawResponse(Itoa(id), JsonArray(c), JsonArray(t));
    StripWhitespaceRemoves(raw);
    StripWhitespace(raw)
  }

  lemma ResponseKeys()
    ensures RemoveWhitespace("{") == "{" && RemoveWhitespace(",") == "," && RemoveWhitespace("}") == "}"
  {
    RemoveWhitespaceKeeps("{");
    RemoveWhitespaceKeeps(",");
    RemoveWhitespaceKeeps("}");
  }

  lemma ResponseSpaces()
    ensures RemoveWhitespace("\n\t\t\t") == "" && RemoveWhitespace(" ") == "" && RemoveWhitespace("\n\t\t") == ""
  {
    RemoveWhitespaceDrops("\n\t\t\t");
    RemoveWhitespaceDrops(" ");
    RemoveWhitespaceDrops("\n\t\t");
  }

  lemma ResponseNames()
    ensures RemoveWhitespace("\"id\":") == "\"id\":"
    ensures RemoveWhitespace("\"categoryLabel\":") == "\"categoryLabel\":"
  {
    RemoveWhitespaceKeeps("\"id\":");
    RemoveWhitespaceKeeps("\"categoryLabel\":");
  }

  lemma TypeLabelName()
    ensures RemoveWhitespace("\"typeLabel\":") == "\"typeLabel\":"
  {
    RemoveWhitespaceKeeps("\"typeLabel\":");
  }

  /** Stripping the raw answer piece by piece. */
  lemma ResponsePieces(n: string, jc: string, jt: string)
    requires RemoveWhitespace(n) == n
    ensures RemoveWhitespace(RawResponse(n, jc, jt)) ==
      "{" + ("\"id\":" + (n + ("," + ("\"categoryLabel\":" + (RemoveWhitespace(jc)
        + ("," + ("\"typeLabel\":" + (RemoveWhitespace(jt) + "}"))))))))
  {
    ResponseKeys();
    ResponseSpaces();
    ResponseNames();
    TypeLabelName();
    var r9 := "\n\t\t" + "}";
    var r8 := jt + r9;
    var r7 := "\"typeLabel\":" + (" " + r8);
    var r6 := "," + ("\n\t\t\t" + r7);
    var r5 := jc + r6;
    var r4 := "\"categoryLabel\":" + r5;
    var r3 := "," + ("\n\t\t\t" + r4);
    var r2 := n + r3;
    var r1 := "\"id\":" + (" " + r2);
    RemoveWhitespaceStep("{", "\n\t\t\t", r1);
    RemoveWhitespaceStep("\"id\":", " ", r2);
    RemoveWhitespaceAppend(n, r3);
    RemoveWhitespaceStep(",", "\n\t\t\t", r4);
    RemoveWhitespaceKey("\"categoryLabel\":", r5);
    RemoveWhitespaceAppend(jc, r6);
    RemoveWhitespaceStep(",", "\n\t\t\t", r7);
    RemoveWhitespaceStep("\"typeLabel\":", " ", r8);
    RemoveWhitespaceAppend(jt, r9);
    ResponseEnd();
  }

  lemma ResponseEnd()
    ensures RemoveWhitespace("\n\t\t" + "}") == "}"
  {
    RemoveWhitespaceDrops("\n\t\t");
    RemoveWhitespaceKeeps("}");
    RemoveWhitespaceAppend("\n\t\t", "}");
  }

  lemma MergeResponse(n: string, a: string, t: string)
    ensures "{" + ("\"id\":" + (n + ("," + ("\"categoryLabel\":" + (a + ("," + ("\"typeLabel\":" + (t + "}"))))))))
         == "{\"id\":" + n + ",\"categoryLabel\":" + a + ",\"typeLabel\":" + t + "}"
  {
    var k, l2, l3 := "{\"id\":", ",\"categoryLabel\":", ",\"typeLabel\":";
    var r5 := t + "}";
    var r4 := l3 + r5;
    var r3 := a + r4;
    var r2 := l2 + r3;
    var r1 := n + r2;
    // the raw pieces, merged literal by literal from the right
    Assoc(",", "\"typeLabel\":", r5);
    assert "," + "\"typeLabel\":" == l3;
    Assoc(",", "\"categoryLabel\":", r3);
    assert "," + "\"categoryLabel\":" == l2;
    Assoc("{", "\"id\":", r1);
    assert "{" + "\"id\":" == k;
    // the left-nested sum, regrouped to the right
    Assoc(k + n + l2 + a + l3, t, "}");
    Assoc(k + n + l2 + a, l3, r5);
    Assoc(k + n + l2, a, r4);
    Assoc(k + n, l2, r3);
    Assoc(k, n, r2);
  }

  /**
   * The assistant answer is the compact object
   * `{"id":…,"categoryLabel":[…],"typeLabel":[…]}`; the labels inside it
   * lose their whitespace too.
   */
  lemma ResponseCompact(id: int, c: seq<string>, t: seq<string>)
    ensures Response(id, c, t) ==
      "{\"id\":" + Itoa(id) + ",\"categoryLabel\":" + RemoveWhitespace(JsonArray(c))
        + ",\"typeLabel\":" + RemoveWhitespace(JsonArray(t)) + "}"
  {
    var n, jc, jt := Itoa(id), JsonArray(c), JsonArray(t);
    ItoaHasNoWhitespace(id);
    StripWhitespaceRemoves(RawResponse(n, jc, jt));
    ResponsePieces(n, jc, jt);
    MergeResponse(n, RemoveWhitespace(jc), RemoveWhitespace(jt));
  }

  // ---------------------------------------------------------------- the row loop

  /** The prompt of an eligible row: system, user, then the answer as "assistant". */
  function PromptFor(setup: Setup, row: IssueRow, c: seq<string>, t: seq<string>): PromptTemplate
  {
    PromptTemplate([PromptMessage("system", setup.systemPrompt),
                    PromptMessage("user", UserContent(setup, row)),
                    PromptMessage("assistant", Response(row.id, c, t))])
  }

  function RecordFor(setup: Setup, row: IssueRow, c: seq<string>, t: seq<string>): JsonPrompt
  {
    JsonPrompt(Question(row), Context(setup), RecordAnswer(row.id, c, t), setup.systemPrompt)
  }

  /** The side-file record of a row: every eligible row has one, whatever happens to its prompt later. */
  function RecordOf(row: IssueRow, setup: Setup, parse: string -> Option<seq<string>>): Option<JsonPrompt>
  {
    match Eligible(row, setup, parse)
    case None => None
    case Some((c, t)) => Some(RecordFor(setup, row, c, t))
  }

  /** A row before the budget check: ineligible rows and prompts that cannot be marshalled or encoded are skipped. */
  function CandidateOf(row: IssueRow, setup: Setup, svc: Services): Candidate<PromptTemplate>
  {
    match Eligible(row, setup, svc.parse)
    case None => Skipped
    case Some((c, t)) =>
      var prompt := PromptFor(setup, row, c, t);
      match svc.marshal(prompt)
      case None => Skipped
      case Some(js) =>
        match svc.encode(js)
        case None => Skipped
        case Some(n) => Priced(prompt, n)
  }

  function Candidates(rows: seq<IssueRow>, setup: Setup, svc: Services): seq<Candidate<PromptTemplate>>
  {
    seq(|rows|, i requires 0 <= i < |rows| => CandidateOf(rows[i], setup, svc))
  }

  /** The side-file record of one row, if it has one. */
  function RowRecord(row: IssueRow, setup: Setup, parse: string -> Option<seq<string>>): seq<JsonPrompt>
  {
    match RecordOf(row, setup, parse)
    case None => []
    case Some(r) => [r]
  }

  /** The side-file records of `rows`, in row order. */
  function Records(rows: seq<IssueRow>, setup: Setup, parse: string -> Option<seq<string>>): seq<JsonPrompt>
  {
    if rows == [] then [] else RowRecord(rows[0], setup, parse) + Records(rows[1..], setup, parse)
  }

  lemma {:induction false} RecordsAppend(a: seq<IssueRow>, b: seq<IssueRow>, setup: Setup, parse: string -> Option<seq<string>>)
    ensures Records(a + b, setup, parse) == Records(a, setup, parse) + Records(b, setup, parse)
  {
    if a == [] {
      assert a + b == b;
    } else {
      var ab := a + b;
      assert ab[0] == a[0];
      assert ab[1..] == a[1..] + b;
      RecordsAppend(a[1..], b, setup, parse);
      Assoc(RowRecord(a[0], setup, parse), Records(a[1..], setup, parse), Records(b, setup, parse));
    }
  }

  lemma RecordsOne(row: IssueRow, setup: Setup, parse: string -> Option<seq<string>>)
    ensures Records([row], setup, parse) == RowRecord(row, setup, parse)
  {
    assert [row][1..] == [];
    assert RowRecord(row, setup, parse) + [] == RowRecord(row, setup, parse);
  }

  lemma RecordsStep(rows: seq<IssueRow>, i: nat, setup: Setup, parse: string -> Option<seq<string>>)
    requires i < |rows|
    ensures Records(rows[..i + 1], setup, parse) ==
      Records(rows[..i], setup, parse) + RowRecord(rows[i], setup, parse)
  {
    var one := [rows[i]];
    assert rows[..i + 1] == rows[..i] + one;
    RecordsAppend(rows[..i], one, setup, parse);
    RecordsOne(rows[i], setup, parse);
  }

  /** The label part of the row loop's body: parse, keep the allowed labels, apply the skip rule. */
  method RowLabels(row: IssueRow, setup: Setup, parse: string -> Option<seq<string>>)
    returns (e: Option<(seq<string>, seq<string>)>)
    ensures e == Eligible(row, setup, parse)
  {
    var parsed := GetLabelsFromIssueLabels(row.labels, parse);
    if parsed.Err? {
      return None;
    }
    var (preCategoryLabels, preTypeLabels) := parsed.value;
    var categoryLabels := KeepAllowed(preCategoryLabels, setup.categories);
    var typeLabels := KeepAllowed(preTypeLabels, setup.types);
    if |categoryLabels| == 0 || |typeLabels| == 0 || |categoryLabels| != |typeLabels| {
      return None;
    }
    return Some((categoryLabels, typeLabels));
  }

  /** The row loop's body up to the budget check: the record it appends, if any, and the candidate prompt. */
  method ProcessRow(row: IssueRow, setup: Setup, svc: Services)
    returns (record: Option<JsonPrompt>, c: Candidate<PromptTemplate>)
    ensures record == RecordOf(row, setup, svc.parse)
    ensures c == CandidateOf(row, setup, svc)
  {
    var e := RowLabels(row, setup, svc.parse);
    if e.None? {
      return None, Skipped;
    }
    var (categoryLabels, typeLabels) := e.value;
    record := Some(RecordFor(setup, row, categoryLabels, typeLabels));
    var prompt := PromptFor(setup, row, categoryLabels, typeLabels);
    var promptJson := svc.marshal(prompt);
    if promptJson.None? {
      return record, Skipped;
    }
    var tokens := svc.encode(promptJson.value);
    if tokens.None? {
      return record, Skipped;
    }
    return record, Priced(prompt, tokens.value);
  }

  /** How many rows the loop read: the scanned ones, and the one that overflowed the budget. */
  function Reached<T>(sel: Selection<T>): nat
  {
    if sel.stopped then sel.scanned + 1 else sel.scanned
  }

  /** The records collected from the first `i` rows. */
  ghost predicate Recorded(rows: seq<IssueRow>, setup: Setup, parse: string -> Option<seq<string>>, i: nat, records: seq<JsonPrompt>)
  {
    i <= |rows| && records == Records(rows[..i], setup, parse)
  }

  /** `jsonPrompts = append(jsonPrompts, jsonPrompt)` for an eligible row. */
  method AddRecord(ghost rows: seq<IssueRow>, setup: Setup, parse: string -> Option<seq<string>>, i: nat,
                   record: Option<JsonPrompt>, records: seq<JsonPrompt>)
    returns (records': seq<JsonPrompt>)
    requires i < |rows| && record == RecordOf(rows[i], setup, parse) && Recorded(rows, setup, parse, i, records)
    ensures Recorded(rows, setup, parse, i + 1, records')
  {
    RecordsStep(rows, i, setup, parse);
    records' := records;
    if record.Some? {
      records' := records + [record.value];
    }
  }

  /**
   * The row loop of generateCategorizerDataset: the prompts it keeps are the
   * budget selection over the rows' candidates, at most 100000 tokens in
   * all, and the records are those of every row it read, up to and
   * including the one that overflowed.
   */
  method SelectPrompts(rows: seq<IssueRow>, setup: Setup, svc: Services)
    returns (prompts: seq<PromptTemplate>, records: seq<JsonPrompt>, totalTokens: nat, totalIssues: nat)
    ensures var sel := Take(Candidates(rows, setup, svc), MaxTokens, 0);
      && prompts == sel.accepted && totalTokens == sel.totalTokens
      && Reached(sel) <= |rows| && records == Records(rows[..Reached(sel)], setup, svc.parse)
    ensures totalIssues == |prompts| && totalTokens <= MaxTokens
  {
    ghost var cs := Candidates(rows, setup, svc);
    prompts, records, totalTokens, totalIssues := [], [], 0, 0;
    var i := 0;
    TakeStart(cs, MaxTokens);
    while i < |rows|
      invariant 0 <= i <= |rows| && |cs| == |rows|
      invariant totalIssues == |prompts|
      invariant Selecting(cs, MaxTokens, i, prompts, totalTokens)
      invariant Recorded(rows, setup, svc.parse, i, records)
    {
      var record, candidate := ProcessRow(rows[i], setup, svc);
      records := AddRecord(rows, setup, svc.parse, i, record, records);
      var stop;
      prompts, totalTokens, totalIssues, stop := Consume(cs, MaxTokens, i, candidate, prompts, totalTokens, totalIssues);
      if stop {
        RecordsReached(rows, setup, svc, i + 1, records);
        return;
      }
      i := i + 1;
    }
    TakeDone(cs, MaxTokens, totalTokens, prompts);
    RecordsReached(rows, setup, svc, |rows|, records);
  }

  lemma RecordsReached(rows: seq<IssueRow>, setup: Setup, svc: Services, i: nat, records: seq<JsonPrompt>)
    requires Reached(Take(Candidates(rows, setup, svc), MaxTokens, 0)) == i
    requires Recorded(rows, setup, svc.parse, i, records)
    ensures var sel := Take(Candidates(rows, setup, svc), MaxTokens, 0);
      Reached(sel) <= |rows| && records == Records(rows[..Reached(sel)], setup, svc.parse)
  {
  }

  /** A prompt that reaches the budget check comes from an eligible row, which has its record. */
  lemma PricedHasRecord(row: IssueRow, setup: Setup, svc: Services)
    requires CandidateOf(row, setup, svc).Priced?
    ensures RecordOf(row, setup, svc.parse).Some?
  {
  }

  /** There are at least as many records as priced prompts among the same rows. */
  lemma {:induction false} RecordsCoverPrompts(rows: seq<IssueRow>, setup: Setup, svc: Services)
    ensures |Items(Candidates(rows, setup, svc))| <= |Records(rows, setup, svc.parse)|
  {
    if rows != [] {
      var cs := Candidates(rows, setup, svc);
      CandidatesTail(rows, setup, svc);
      RecordsCoverPrompts(rows[1..], setup, svc);
      ItemsHead(cs);
      RecordsHead(rows, setup, svc.parse);
      if cs[0].Priced? {
        PricedRowRecord(rows[0], setup, svc);
      }
    }
  }

  lemma CandidatesTail(rows: seq<IssueRow>, setup: Setup, svc: Services)
    requires rows != []
    ensures Candidates(rows, setup, svc)[0] == CandidateOf(rows[0], setup, svc)
    ensures Candidates(rows, setup, svc)[1..] == Candidates(rows[1..], setup, svc)
  {
    assert Candidates(rows, setup, svc)[1..] == Candidates(rows[1..], setup, svc);
  }

  lemma ItemsHead<T>(cs: seq<Candidate<T>>)
    requires cs != []
    ensures |Items(cs)| == (if cs[0].Priced? then 1 else 0) + |Items(cs[1..])|
  {
  }

  lemma RecordsHead(rows: seq<IssueRow>, setup: Setup, parse: string -> Option<seq<string>>)
    requires rows != []
    ensures |Records(rows, setup, parse)| == |RowRecord(rows[0], setup, parse)| + |Records(rows[1..], setup, parse)|
  {
  }

  lemma PricedRowRecord(row: IssueRow, setup: Setup, svc: Services)
    requires CandidateOf(row, setup, svc).Priced?
    ensures |RowRecord(row, setup, svc.parse)| == 1
  {
    PricedHasRecord(row, setup, svc);
  }

  lemma CandidatesPrefix(rows: seq<IssueRow>, n: nat, setup: Setup, svc: Services)
    requires n <= |rows|
    ensures Candidates(rows, setup, svc)[..n] == Candidates(rows[..n], setup, svc)
  {
  }

  /** Every kept prompt has its record among those of the rows the loop read. */
  lemma RecordsCoverSelection(rows: seq<IssueRow>, setup: Setup, svc: Services)
    ensures var sel := Take(Candidates(rows, setup, svc), MaxTokens, 0);
      Reached(sel) <= |rows| && |sel.accepted| <= |Records(rows[..Reached(sel)], setup, svc.parse)|
  {
    var sel := Take(Candidates(rows, setup, svc), MaxTokens, 0);
    var n := sel.scanned;
    CandidatesPrefix(rows, n, setup, svc);
    RecordsCoverPrompts(rows[..n], setup, svc);
    RecordsPrefixGrows(rows, n, Reached(sel), setup, svc.parse);
  }

  /** When the loop stops on an overflow, the records also hold the overflowing row's. */
  lemma OverflowHasRecord(rows: seq<IssueRow>, setup: Setup, svc: Services)
    requires Take(Candidates(rows, setup, svc), MaxTokens, 0).stopped
    ensures var n := Take(Candidates(rows, setup, svc), MaxTokens, 0).scanned;
      && n < |rows| && RecordOf(rows[n], setup, svc.parse).Some?
      && Records(rows[..n + 1], setup, svc.parse) ==
         Records(rows[..n], setup, svc.parse) + [RecordOf(rows[n], setup, svc.parse).value]
  {
    var cs := Candidates(rows, setup, svc);
    var n := Take(cs, MaxTokens, 0).scanned;
    assert cs[n] == CandidateOf(rows[n], setup, svc);
    PricedHasRecord(rows[n], setup, svc);
    RecordsStep(rows, n, setup, svc.parse);
    assert RowRecord(rows[n], setup, svc.parse) == [RecordOf(rows[n], setup, svc.parse).value];
  }

  lemma RecordsPrefixGrows(rows: seq<IssueRow>, i: nat, j: nat, setup: Setup, parse: string -> Option<seq<string>>)
    requires i <= j <= |rows|
    ensures |Records(rows[..i], setup, parse)| <= |Records(rows[..j], setup, parse)|
  {
    assert rows[..j] == rows[..i] + rows[i..j];
    RecordsAppend(rows[..i], rows[i..j], setup, parse);
  }

  // ---------------------------------------------------------------- output

  /**
   * The output loop `finalContent += string(json.Marshal(prompt)) + "\n"`:
   * one JSON document per line, in order; the first prompt that cannot be
   * marshalled ends it with an error.
   */
  function JsonLines(ps: seq<PromptTemplate>, marshal: PromptTemplate -> Option<string>): Result<string, string>
  {
    if ps == [] then Ok("")
    else match marshal(ps[0])
      case None => Err("cannot marshal prompt")
      case Some(line) =>
        match JsonLines(ps[1..], marshal)
        case Err(e) => Err(e)
        case Ok(rest) => Ok(line + "\n" + rest)
  }

  /** `done` written in front of the output for the rest. */
  function After(done: string, rest: Result<string, string>): Result<string, string>
  {
    match rest
    case Err(e) => Err(e)
    case Ok(s) => Ok(done + s)
  }

  method WriteJsonLines(ps: seq<PromptTemplate>, marshal: PromptTemplate -> Option<string>) returns (r: Result<string, string>)
    ensures r == JsonLines(ps, marshal)
  {
    var finalContent := "";
    var i := 0;
    assert ps[0..] == ps;
    AfterNothing(JsonLines(ps, marshal));
    while i < |ps|
      invariant 0 <= i <= |ps|
      invariant JsonLines(ps, marshal) == After(finalContent, JsonLines(ps[i..], marshal))
    {
      assert ps[i..][1..] == ps[i + 1..];
      var content := marshal(ps[i]);
      if content.None? {
        return Err("cannot marshal prompt");
      }
      AfterAfter(finalContent, content.value + "\n", JsonLines(ps[i + 1..], marshal));
      finalContent := finalContent + (content.value + "\n");
      i := i + 1;
    }
    assert ps[i..] == [];
    assert finalContent + "" == finalContent;
    return Ok(finalContent);
  }

  lemma AfterNothing(r: Result<string, string>)
    ensures After("", r) == r
  {
    if r.Ok? {
      assert "" + r.value == r.value;
    }
  }

  lemma AfterAfter(a: string, b: string, r: Result<string, string>)
    ensures After(a, After(b, r)) == After(a + b, r)
  {
    if r.Ok? {
      assert a + (b + r.value) == (a + b) + r.value;
    }
  }

  /** The output for two lists of prompts is the output for the first followed by the output for the second. */
  lemma {:induction false} JsonLinesAppend(a: seq<PromptTemplate>, b: seq<PromptTemplate>, marshal: PromptTemplate -> Option<string>)
    ensures JsonLines(a, marshal).Err? ==> JsonLines(a + b, marshal) == JsonLines(a, marshal)
    ensures JsonLines(a, marshal).Ok? ==> JsonLines(a + b, marshal) == After(JsonLines(a, marshal).value, JsonLines(b, marshal))
  {
    if a == [] {
      assert a + b == b;
      AfterNothing(JsonLines(b, marshal));
    } else {
      assert (a + b)[0] == a[0] && (a + b)[1..] == a[1..] + b;
      JsonLinesAppend(a[1..], b, marshal);
      if JsonLines(a, marshal).Ok? {
        var line := marshal(a[0]).value;
        var rest := JsonLines(a[1..], marshal).value;
        assert JsonLines(a + b, marshal) == After(line + "\n", JsonLines(a[1..] + b, marshal));
        AfterAfter(line + "\n", rest, JsonLines(b, marshal));
      }
    }
  }

  /** A prompt's line of the output: its JSON and a newline. */
  function Line(p: PromptTemplate, marshal: PromptTemplate -> Option<string>): string
  {
    match marshal(p)
    case None => ""
    case Some(js) => js + "\n"
  }

  /**
   * The output exists exactly when every prompt can be marshalled, and it is
   * then each prompt's JSON followed by a newline, in order.
   */
  lemma {:induction false} JsonLinesLines(ps: seq<PromptTemplate>, marshal: PromptTemplate -> Option<string>)
    ensures JsonLines(ps, marshal).Ok? <==> forall k :: 0 <= k < |ps| ==> marshal(ps[k]).Some?
    ensures JsonLines(ps, marshal).Ok? ==>
      JsonLines(ps, marshal).value == Concat(seq(|ps|, k requires 0 <= k < |ps| => Line(ps[k], marshal)))
  {
    if ps != [] {
      JsonLinesLines(ps[1..], marshal);
      var lines := seq(|ps|, k requires 0 <= k < |ps| => Line(ps[k], marshal));
      assert lines[1..] == seq(|ps[1..]|, k requires 0 <= k < |ps[1..]| => Line(ps[1..][k], marshal));
      assert forall k :: 1 <= k < |ps| ==> ps[k] == ps[1..][k - 1];
    }
  }

  /**
   * generateCategorizerDataset after its files are read: the row loop, then
   * the JSON-lines output of the kept prompts; the records go to the side
   * file.
   */
  method GenerateCategorizerDataset(rows: seq<IssueRow>, setup: Setup, svc: Services)
    returns (content: Result<string, string>, records: seq<JsonPrompt>)
    ensures var sel := Take(Candidates(rows, setup, svc), MaxTokens, 0);
      && content == JsonLines(sel.accepted, svc.marshal)
      && Reached(sel) <= |rows| && records == Records(rows[..Reached(sel)], setup, svc.parse)
  {
    var prompts, totalTokens, totalIssues;
    prompts, records, totalTokens, totalIssues := SelectPrompts(rows, setup, svc);
    content := WriteJsonLines(prompts, svc.marshal);
  }
}
