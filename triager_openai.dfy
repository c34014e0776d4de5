/**
 * The command of pkg/cmd/triager-openai/triager-openai.go: it asks a chat
 * model to categorize one GitHub issue, retrying up to `retries` times. An
 * attempt fails when the call fails, when the answer has no usable id, or
 * when none of the returned categories is in the categories file. The
 * categories of a successful answer are cut down to that file, and the
 * labels sent to GitHub are those categories, the types and
 * `automated-triage`.
 */
module TriagerOpenAi {
  import opened Common
  import opened Seqs

  /** What json.Unmarshal leaves in an `interface{}` field, and the Go int a literal `0` is. */
  datatype AnyValue = Null | Float64(number: int) | Text(text: string) | Boolean(flag: bool) | GoInt(n: int)

  datatype CategorizedIssue = CategorizedIssue(
    id: AnyValue, categoryLabel: seq<string>, typeLabel: seq<string>, isCategorizable: bool, remarks: string)

  /** CategorizedIssue{}. */
  const NoCategory := CategorizedIssue(Null, [], [], false, "")

  const TriageLabel := "automated-triage"

  /**
   * One call of getIssueCategory: the unmarshalled answer, an error it
   * returns (tokenizer, unmarshal), or a chat-completion error, on which it
   * exits the process.
   */
  datatype Reply = Answered(category: CategorizedIssue) | Failed(err: string) | Aborted(err: string)

  // ---------------------------------------------------------------- the id check

  /**
   * The retry condition `category.ID == 0 || category.ID == nil` as written:
   * an interface value equals the untyped constant 0 only when it holds a Go
   * int, which json.Unmarshal never stores.
   */
  predicate IdRejectedAsWritten(id: AnyValue) {
    id == GoInt(0) || id == Null
  }

  /** A zero id as the model's JSON carries it passes the check as written. */
  lemma ZeroFloatIdPasses()
    ensures !IdRejectedAsWritten(Float64(0))
  {
  }

  /** The check as intended: no id, or an id that is the number zero. */
  predicate IdRejected(id: AnyValue) {
    match id
    case Null => true
    case Float64(x) => x == 0
    case GoInt(n) => n == 0
    case _ => false
  }

  /** The intended check rejects every zero id json.Unmarshal can produce, and agrees with the written one elsewhere. */
  lemma IdRejectedCatchesZero(id: AnyValue)
    ensures id == Float64(0) ==> IdRejected(id)
    ensures !id.Float64? ==> (IdRejected(id) <==> IdRejectedAsWritten(id))
    ensures id.Float64? ==> (IdRejected(id) <==> id.number == 0) && !IdRejectedAsWritten(id)
  {
  }

  // ---------------------------------------------------------------- the retry loop

  /** The state the loop leaves: retries left, the last category, and the last error. */
  datatype LoopState = LoopState(leftRetries: int, category: CategorizedIssue, err: Option<string>, aborted: Option<string>)

  /**
   * The loop of lines 116-152 from attempt `k`, with `left` retries left:
   * every failed attempt costs one retry, an attempt whose id is rejected
   * or whose categories are none of `allowed` costs one too (clearing the
   * error), and the first good answer ends the loop with its categories
   * filtered.
   */
  function RetryLoop(ask: nat -> Reply, allowed: seq<string>, rejects: AnyValue -> bool,
                     k: nat, left: int, category: CategorizedIssue, err: Option<string>): LoopState
    decreases left
  {
    if left <= 0 then LoopState(left, category, err, None)
    else match ask(k)
      case Aborted(e) => LoopState(left, category, err, Some(e))
      case Failed(e) => RetryLoop(ask, allowed, rejects, k + 1, left - 1, NoCategory, Some(e))
      case Answered(c) =>
        if rejects(c.id) then RetryLoop(ask, allowed, rejects, k + 1, left - 1, c, None)
        else
          var kept := Filter(c.categoryLabel, In(allowed));
          if kept == [] then RetryLoop(ask, allowed, rejects, k + 1, left - 1, c, None)
          else LoopState(left, c.(categoryLabel := kept), None, None)
  }

  /** What the command ends with: the category it prints, or the message it exits with. */
  datatype Outcome = Categorized(category: CategorizedIssue) | Fatal(message: string)

  /** The loop from the start, then the check of lines 154-156. */
  function Categorize(retries: int, ask: nat -> Reply, allowed: seq<string>, rejects: AnyValue -> bool): Outcome
  {
    var s := RetryLoop(ask, allowed, rejects, 0, retries, NoCategory, None);
    if s.aborted.Some? then Fatal("ChatCompletion error: " + s.aborted.value)
    else if s.leftRetries == 0 && s.err.Some? then Fatal("Error categorizing issue: " + s.err.value)
    else Categorized(s.category)
  }

  /**
   * The retry loop of main. `calls` counts the calls of getIssueCategory;
   * the loop makes at most `retries` of them.
   */
  method CategorizeIssue(retries: int, ask: nat -> Reply, allowed: seq<string>, rejects: AnyValue -> bool)
    returns (r: Outcome, calls: nat)
    ensures r == Categorize(retries, ask, allowed, rejects)
    ensures calls <= (if retries > 0 then retries else 0)
  {
    var leftRetries := retries;
    var category := NoCategory;
    var err: Option<string> := None;
    calls := 0;
    while leftRetries > 0
      invariant leftRetries <= retries && calls == retries - leftRetries
      invariant leftRetries >= 0 || leftRetries == retries
      invariant RetryLoop(ask, allowed, rejects, calls, leftRetries, category, err) ==
                RetryLoop(ask, allowed, rejects, 0, retries, NoCategory, None)
      decreases leftRetries
    {
      var reply := ask(calls);
      calls := calls + 1;
      match reply {
        case Aborted(e) =>
          return Fatal("ChatCompletion error: " + e), calls;
        case Failed(e) =>
          category, err := NoCategory, Some(e);
          leftRetries := leftRetries - 1;
        case Answered(c) =>
          category, err := c, None;
          if rejects(c.id) {
            leftRetries := leftRetries - 1;
          } else {
            var realCategories := KeepAllowed(c.categoryLabel, allowed);
            if |realCategories| == 0 {
              leftRetries := leftRetries - 1;
            } else {
              category := category.(categoryLabel := realCategories);
              return Categorized(category), calls;
            }
          }
      }
    }
    if leftRetries == 0 && err.Some? {
      return Fatal("Error categorizing issue: " + err.value), calls;
    }
    return Categorized(category), calls;
  }

  /**
   * The loop ends early only on a good answer: some attempt before the
   * retries ran out returned a category with an accepted id, and the loop
   * kept exactly its allowed categories, of which there is at least one.
   */
  lemma {:induction false} EarlyExitIsGood(ask: nat -> Reply, allowed: seq<string>, rejects: AnyValue -> bool,
                                           k: nat, left: int, category: CategorizedIssue, err: Option<string>)
    returns (j: nat)
    requires RetryLoop(ask, allowed, rejects, k, left, category, err).leftRetries > 0
    requires RetryLoop(ask, allowed, rejects, k, left, category, err).aborted.None?
    ensures k <= j < k + left && ask(j).Answered? && !rejects(ask(j).category.id)
    ensures var s := RetryLoop(ask, allowed, rejects, k, left, category, err);
      var c := ask(j).category;
      && s.category == c.(categoryLabel := Filter(c.categoryLabel, In(allowed)))
      && s.category.categoryLabel != [] && s.err.None?
    decreases left
  {
    match ask(k)
    case Failed(e) =>
      j := EarlyExitIsGood(ask, allowed, rejects, k + 1, left - 1, NoCategory, Some(e));
    case Answered(c) =>
      if rejects(c.id) || Filter(c.categoryLabel, In(allowed)) == [] {
        j := EarlyExitIsGood(ask, allowed, rejects, k + 1, left - 1, c, None);
      } else {
        j := k;
      }
  }

  /**
   * Once the retries run out, the last error is the last attempt's: set
   * when that attempt failed, cleared when it answered; and the category is
   * that attempt's answer, unfiltered, or CategorizedIssue{}.
   */
  lemma {:induction false} ExhaustedKeepsLast(ask: nat -> Reply, allowed: seq<string>, rejects: AnyValue -> bool,
                                              k: nat, left: int, category: CategorizedIssue, err: Option<string>)
    requires left > 0
    requires RetryLoop(ask, allowed, rejects, k, left, category, err).leftRetries == 0
    requires RetryLoop(ask, allowed, rejects, k, left, category, err).aborted.None?
    ensures var s := RetryLoop(ask, allowed, rejects, k, left, category, err);
      && (s.err.Some? <==> ask(k + left - 1).Failed?)
      && (ask(k + left - 1).Failed? ==> s.category == NoCategory && s.err == Some(ask(k + left - 1).err))
      && (ask(k + left - 1).Answered? ==> s.category == ask(k + left - 1).category)
    decreases left
  {
    if left > 1 {
      match ask(k)
      case Failed(e) =>
        ExhaustedKeepsLast(ask, allowed, rejects, k + 1, left - 1, NoCategory, Some(e));
      case Answered(c) =>
        ExhaustedKeepsLast(ask, allowed, rejects, k + 1, left - 1, c, None);
    }
  }

  /**
   * The command exits with "Error categorizing issue" exactly when every
   * retry was used and the last attempt failed; when the last attempt was
   * an answer that did not pass, that answer is printed as it came.
   */
  lemma CategorizeFatal(retries: int, ask: nat -> Reply, allowed: seq<string>, rejects: AnyValue -> bool)
    requires RetryLoop(ask, allowed, rejects, 0, retries, NoCategory, None).aborted.None?
    ensures Categorize(retries, ask, allowed, rejects).Fatal? <==>
      retries > 0 && RetryLoop(ask, allowed, rejects, 0, retries, NoCategory, None).leftRetries == 0
        && ask(retries - 1).Failed?
    ensures (retries > 0 && RetryLoop(ask, allowed, rejects, 0, retries, NoCategory, None).leftRetries == 0
             && ask(retries - 1).Answered?) ==>
      Categorize(retries, ask, allowed, rejects) == Categorized(ask(retries - 1).category)
  {
    var s := RetryLoop(ask, allowed, rejects, 0, retries, NoCategory, None);
    if retries > 0 && s.leftRetries == 0 {
      ExhaustedKeepsLast(ask, allowed, rejects, 0, retries, NoCategory, None);
    }
  }

  /**
   * With the written id check, a zero id the model sends as JSON is taken
   * on the first attempt, where the intended check asks again and takes
   * the second answer.
   */
  lemma ZeroIdTakenAsWritten(first: CategorizedIssue, second: CategorizedIssue, allowed: seq<string>)
    requires first.id == Float64(0) && second.id == Float64(7)
    requires |first.categoryLabel| == 1 && first.categoryLabel[0] in allowed
    requires |second.categoryLabel| == 1 && second.categoryLabel[0] in allowed
    ensures var ask := (k: nat) => if k == 0 then Answered(first) else Answered(second);
      && Categorize(2, ask, allowed, IdRejectedAsWritten) == Categorized(first)
      && Categorize(2, ask, allowed, IdRejected) == Categorized(second)
  {
    var ask := (k: nat) => if k == 0 then Answered(first) else Answered(second);
    KeepOne(first.categoryLabel, allowed);
    KeepOne(second.categoryLabel, allowed);
    assert RetryLoop(ask, allowed, IdRejectedAsWritten, 0, 2, NoCategory, None)
        == LoopState(2, first, None, None);
    assert RetryLoop(ask, allowed, IdRejected, 0, 2, NoCategory, None)
        == RetryLoop(ask, allowed, IdRejected, 1, 1, first, None);
  }

  lemma KeepOne(xs: seq<string>, allowed: seq<string>)
    requires |xs| == 1 && xs[0] in allowed
    ensures Filter(xs, In(allowed)) == xs
  {
    assert xs[1..] == [];
  }

  // ---------------------------------------------------------------- labels and flags

  /** The labels sent to the issue: the kept categories, the types, then `automated-triage`. */
  function LabelsToAdd(c: CategorizedIssue): (r: seq<string>)
    ensures |r| == |c.categoryLabel| + |c.typeLabel| + 1
    ensures r[..|c.categoryLabel|] == c.categoryLabel
    ensures r[|c.categoryLabel|..|r| - 1] == c.typeLabel
    ensures r[|r| - 1] == TriageLabel
  {
    c.categoryLabel + c.typeLabel + [TriageLabel]
  }

  /** validateFlags: the issue id, then the OpenAI key, then the GitHub token. */
  function ValidateFlags(issueId: int, openAiKey: string, ghToken: string): Option<string>
  {
    if issueId == 0 then Some("issueId is required")
    else if openAiKey == "" then Some("OPENAI_API_KEY env var is required")
    else if ghToken == "" then Some("GH_TOKEN env var is required")
    else None
  }

  lemma ValidateFlagsOrder(issueId: int, openAiKey: string, ghToken: string)
    ensures ValidateFlags(issueId, openAiKey, ghToken).None? <==> issueId != 0 && openAiKey != "" && ghToken != ""
    ensures issueId == 0 ==> ValidateFlags(issueId, openAiKey, ghToken) == Some("issueId is required")
    ensures issueId != 0 && openAiKey == "" ==>
      ValidateFlags(issueId, openAiKey, ghToken) == Some("OPENAI_API_KEY env var is required")
  {
  }

  /** What main does after the flags pass and the files are read. */
  datatype Run = Printed(category: CategorizedIssue, labelsAdded: Option<seq<string>>) | Exited(message: string)

  /**
   * main after validating the flags and reading the files: an issue without
   * a title ends it, then the retry loop runs with the id check `rejects`
   * (`IdRejectedAsWritten` is line 121 as written, `IdRejected` the intended
   * check), and with `addLabels` the labels go to GitHub (`addResult`).
   */
  method Triage(title: string, retries: int, ask: nat -> Reply, allowed: seq<string>, rejects: AnyValue -> bool,
                addLabels: bool, addResult: seq<string> -> Option<string>)
    returns (run: Run)
    ensures title == "" ==> run == Exited("Error fetching issue details: Title is empty")
    ensures title != "" ==> match Categorize(retries, ask, allowed, rejects)
      case Fatal(m) => run == Exited(m)
      case Categorized(c) =>
        if !addLabels then run == Printed(c, None)
        else if addResult(LabelsToAdd(c)).Some? then run == Exited("Error adding labels to issue: " + addResult(LabelsToAdd(c)).value)
        else run == Printed(c, Some(LabelsToAdd(c)))
  {
    if title == "" {
      return Exited("Error fetching issue details: Title is empty");
    }
    var outcome, _ := CategorizeIssue(retries, ask, allowed, rejects);
    if outcome.Fatal? {
      return Exited(outcome.message);
    }
    var category := outcome.category;
    if !addLabels {
      return Printed(category, None);
    }
    var labels: seq<string> := [];
    labels := labels + category.categoryLabel;
    labels := labels + category.typeLabel;
    labels := labels + [TriageLabel];
    assert labels == LabelsToAdd(category);
    var added := addResult(labels);
    if added.Some? {
      return Exited("Error adding labels to issue: " + added.value);
    }
    return Printed(category, Some(labels));
  }
}
