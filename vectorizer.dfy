/**
 * The incremental vectorizer (pkg/cmd/vectorizer/vectorizer.go): it drives
 * the unprocessed rows of the sqlite `issues` table, one batch of at most 100
 * at a time and in ascending id order, through content synthesis, one batched
 * embedding call, insertion into the vector collection "issues", the caller's
 * save callback, and only then the `processed = 1` update.
 *
 * The table is a sequence of rows in ascending id order (the primary key);
 * the collection is a map from document id to document. The label parser,
 * the embedder, the collection's AddDocument, the save callback and the
 * UPDATE statement are the services of `Services`.
 */
module Vectorizer {
  import opened Common
  import opened Strings
  import opened Seqs

  const BatchSize: nat := 100

  /** One row of the `issues` table. */
  datatype IssueRow = IssueRow(
    id: int, title: string, description: string, labels: string, raw: string, processed: bool)

  /** Row ids are 64-bit sqlite integers, strictly ascending (the table is read in key order). */
  predicate WellFormed(rows: seq<IssueRow>) {
    && (forall i :: 0 <= i < |rows| ==> MinInt64 <= rows[i].id <= MaxInt64)
    && (forall i, j :: 0 <= i < j < |rows| ==> rows[i].id < rows[j].id)
  }

  /** The sqlite issue store: its `issues` table. */
  class IssueStore {
    var rows: seq<IssueRow>

    constructor (initial: seq<IssueRow>)
      ensures rows == initial
    {
      rows := initial;
    }
  }

  /** One request of the batched embedding call: AddContentWithTitle(title, content). */
  datatype EmbedRequest = EmbedRequest(title: string, content: string)

  /** One slot of the `batchItems` buffer; unfilled slots hold the zero value. */
  datatype BatchItem = BatchItem(id: int, content: string, labels: string)

  const ZeroItem := BatchItem(0, "", "")

  /** The external services the vectorizer calls, as deterministic functions. */
  datatype Services = Services(
    parse: string -> Option<seq<Label>>,            // json.Unmarshal into []Label
    embed: seq<EmbedRequest> -> Option<seq<Embedding>>,// BatchEmbedContents
    addDocument: Document -> bool,                   // collection.AddDocument succeeds
    saveDb: map<string, Document> -> bool,           // the caller's saveDb callback succeeds
    markProcessed: string -> bool)                   // UPDATE issues SET processed = 1 WHERE id IN (<ids>)

  // ---------------------------------------------------------------- labels

  /** parseLabels: "" for an empty or malformed label string, else the label names. */
  function LabelsText(labels: string, parse: string -> Option<seq<Label>>): string
  {
    if |labels| == 0 then ""
    else match parse(labels)
      case None => ""
      case Some(parsed) => LabelNames(parsed)
  }

  /** parseLabels. */
  method ParseLabels(labels: string, parse: string -> Option<seq<Label>>) returns (s: string)
    ensures labels == "" ==> s == ""
    ensures labels != "" && parse(labels).None? ==> s == ""
    ensures labels != "" && parse(labels).Some? ==> s == LabelNames(parse(labels).value)
  {
    if |labels| == 0 {
      return "";
    }
    var parsed := parse(labels);
    if parsed.None? {
      return "";
    }
    s := JoinLabelNames(parsed.value);
  }

  // ---------------------------------------------------------------- content

  const Indent := "\t\t\t\t\t\t  "

  /** The text that is embedded for a row: title, description and label names, in that order. */
  function Content(title: string, description: string, labelsText: string): string
  {
    "\n" + Indent + "Title: " + title
    + "\n" + Indent + "Description: " + description
    + "\n" + Indent + "Labels: " + labelsText
    + "\n\t\t\t\t\t"
  }

  function Item(row: IssueRow, parse: string -> Option<seq<Label>>): BatchItem
  {
    BatchItem(row.id, Content(row.title, row.description, LabelsText(row.labels, parse)), row.labels)
  }

  // ---------------------------------------------------------------- batch selection

  predicate Ascending(rows: seq<IssueRow>) {
    forall i, j :: 0 <= i < j < |rows| ==> rows[i].id < rows[j].id
  }

  /** The rows with processed = 0, in table order. */
  function Unprocessed(rows: seq<IssueRow>): (u: seq<IssueRow>)
    ensures |u| <= |rows|
  {
    if rows == [] then []
    else if rows[0].processed then Unprocessed(rows[1..])
    else [rows[0]] + Unprocessed(rows[1..])
  }

  /** Each unprocessed row is a row of the table with processed = 0 ... */
  lemma {:induction false} UnprocessedIndex(rows: seq<IssueRow>, i: nat) returns (k: nat)
    requires i < |Unprocessed(rows)|
    ensures k < |rows| && rows[k] == Unprocessed(rows)[i] && !rows[k].processed
  {
    if rows[0].processed {
      k := UnprocessedIndex(rows[1..], i);
      k := k + 1;
    } else if i == 0 {
      k := 0;
    } else {
      k := UnprocessedIndex(rows[1..], i - 1);
      k := k + 1;
    }
  }

  /** ... and each row of the table with processed = 0 is among them. */
  lemma {:induction false} UnprocessedHas(rows: seq<IssueRow>, k: nat) returns (i: nat)
    requires k < |rows| && !rows[k].processed
    ensures i < |Unprocessed(rows)| && Unprocessed(rows)[i] == rows[k]
  {
    if k == 0 {
      i := 0;
    } else if rows[0].processed {
      i := UnprocessedHas(rows[1..], k - 1);
    } else {
      i := UnprocessedHas(rows[1..], k - 1);
      i := i + 1;
    }
  }

  lemma {:induction false} UnprocessedAscending(rows: seq<IssueRow>)
    requires Ascending(rows)
    ensures Ascending(Unprocessed(rows))
  {
    if rows != [] {
      var tail := rows[1..];
      UnprocessedAscending(tail);
      var ut := Unprocessed(tail);
      forall j | 0 <= j < |ut| ensures rows[0].id < ut[j].id {
        var k := UnprocessedIndex(tail, j);
        assert rows[k + 1] == ut[j];
      }
    }
  }

  /** SELECT ... WHERE processed = 0 ORDER BY id ASC LIMIT 100. */
  function Batch(rows: seq<IssueRow>): (b: seq<IssueRow>)
    ensures |b| == if |Unprocessed(rows)| <= BatchSize then |Unprocessed(rows)| else BatchSize
    ensures b == Unprocessed(rows)[..|b|]
  {
    var u := Unprocessed(rows);
    if |u| <= BatchSize then u else u[..BatchSize]
  }

  /**
   * A batch holds at most 100 rows, all rows of the table with processed = 0,
   * in ascending id order, and they have the smallest such ids: every
   * unprocessed row left out has a larger id than every row taken.
   */
  lemma BatchIsSmallestUnprocessed(rows: seq<IssueRow>)
    requires WellFormed(rows)
    ensures var b := Batch(rows);
      && |b| <= BatchSize
      && (forall i :: 0 <= i < |b| ==> b[i] in rows && !b[i].processed)
      && Ascending(b)
      && (forall k :: 0 <= k < |rows| && !rows[k].processed ==>
            rows[k] in b || forall i :: 0 <= i < |b| ==> b[i].id < rows[k].id)
  {
    BatchRowsUnprocessed(rows);
    BatchAscending(rows);
    BatchSmallest(rows);
  }

  lemma BatchRowsUnprocessed(rows: seq<IssueRow>)
    ensures var b := Batch(rows); forall i :: 0 <= i < |b| ==> b[i] in rows && !b[i].processed
  {
    var u, b := Unprocessed(rows), Batch(rows);
    forall i | 0 <= i < |b| ensures b[i] in rows && !b[i].processed {
      var k := UnprocessedIndex(rows, i);
      assert b[i] == u[i];
    }
  }

  lemma BatchAscending(rows: seq<IssueRow>)
    requires WellFormed(rows)
    ensures Ascending(Batch(rows))
  {
    UnprocessedAscending(rows);
    var u, b := Unprocessed(rows), Batch(rows);
    forall i, j | 0 <= i < j < |b| ensures b[i].id < b[j].id {
      assert b[i] == u[i] && b[j] == u[j];
    }
  }

  lemma BatchSmallest(rows: seq<IssueRow>)
    requires WellFormed(rows)
    ensures var b := Batch(rows);
      forall k :: 0 <= k < |rows| && !rows[k].processed ==>
        rows[k] in b || forall i :: 0 <= i < |b| ==> b[i].id < rows[k].id
  {
    UnprocessedAscending(rows);
    var u, b := Unprocessed(rows), Batch(rows);
    forall k | 0 <= k < |rows| && !rows[k].processed
      ensures rows[k] in b || forall i :: 0 <= i < |b| ==> b[i].id < rows[k].id
    {
      var j := UnprocessedHas(rows, k);
      if j < |b| {
        assert b[j] == rows[k];
      } else {
        forall i | 0 <= i < |b| ensures b[i].id < rows[k].id {
          assert b[i] == u[i] && u[j] == rows[k];
        }
      }
    }
  }

  function Slots(batch: seq<IssueRow>, parse: string -> Option<seq<Label>>): (s: seq<BatchItem>)
    ensures |s| == BatchSize
  {
    seq(BatchSize, i requires 0 <= i < BatchSize => if i < |batch| then Item(batch[i], parse) else ZeroItem)
  }

  function Requests(batch: seq<IssueRow>, parse: string -> Option<seq<Label>>): seq<EmbedRequest>
  {
    seq(|batch|, i requires 0 <= i < |batch| => EmbedRequest(batch[i].title, Item(batch[i], parse).content))
  }

  function IdStrings(batch: seq<IssueRow>): seq<string>
  {
    seq(|batch|, i requires 0 <= i < |batch| => Itoa(batch[i].id))
  }

  function BatchIds(batch: seq<IssueRow>): set<int>
  {
    set r | r in batch :: r.id
  }

  /** The document stored for the i-th embedding, paired by position with the i-th slot. */
  function DocFor(item: BatchItem, embedding: Embedding): Document
  {
    Document(Itoa(item.id), item.content, Some(embedding),
             map["idKey" := Itoa(item.id), "labels" := item.labels])
  }

  // ---------------------------------------------------------------- one batch

  datatype FailReason = EmbedFailed | AddFailed(id: int) | IndexOutOfRange | SaveFailed

  /**
   * The `for i, geminiEmbed := range embedRes.Embeddings` loop from index `i`:
   * AddDocument for each embedding in turn, stopping at the first failure; an
   * index past the 100-slot buffer is the slice-index panic.
   */
  function AddFrom(docs: map<string, Document>, slots: seq<BatchItem>, embs: seq<Embedding>,
                   addOk: Document -> bool, i: nat): (map<string, Document>, Option<FailReason>)
    requires i <= |embs|
    decreases |embs| - i
  {
    if i == |embs| then (docs, None)
    else if i >= |slots| then (docs, Some(IndexOutOfRange))
    else
      var d := DocFor(slots[i], embs[i]);
      if !addOk(d) then (docs, Some(AddFailed(slots[i].id)))
      else AddFrom(docs[d.id := d], slots, embs, addOk, i + 1)
  }

  /** UPDATE issues SET processed = 1 WHERE id IN (ids). */
  function MarkProcessed(rows: seq<IssueRow>, ids: set<int>): (r: seq<IssueRow>)
    ensures |r| == |rows|
    ensures forall i :: 0 <= i < |rows| ==> r[i] == if rows[i].id in ids then rows[i].(processed := true) else rows[i]
  {
    if rows == [] then []
    else [if rows[0].id in ids then rows[0].(processed := true) else rows[0]] + MarkProcessed(rows[1..], ids)
  }

  datatype State = State(rows: seq<IssueRow>, docs: map<string, Document>)

  datatype BatchOutcome = NothingToDo | Committed | MarkFailed | Failed(reason: FailReason)

  /** What follows the insertions of a batch: the save callback, then the mark update. */
  function Persist(s: State, batch: seq<IssueRow>, added: (map<string, Document>, Option<FailReason>),
                   svc: Services): (State, BatchOutcome)
  {
    var s1 := State(s.rows, added.0);
    if added.1.Some? then (s1, Failed(added.1.value))
    else if !svc.saveDb(added.0) then (s1, Failed(SaveFailed))
    else if !svc.markProcessed(Join(IdStrings(batch), ",")) then (s1, MarkFailed)
    else (State(MarkProcessed(s.rows, BatchIds(batch)), added.0), Committed)
  }

  /** One iteration of the batch loop: the state it leaves and how it ended. */
  function Step(s: State, svc: Services): (State, BatchOutcome)
  {
    if |Unprocessed(s.rows)| == 0 then (s, NothingToDo)
    else
      var batch := Batch(s.rows);
      match svc.embed(Requests(batch, svc.parse))
      case None => (s, Failed(EmbedFailed))
      case Some(embs) => Persist(s, batch, AddFrom(s.docs, Slots(batch, svc.parse), embs, svc.addDocument, 0), svc)
  }

  /** How many rows of `u` have an id in `ids`. */
  function CountIn(u: seq<IssueRow>, ids: set<int>): nat
  {
    if u == [] then 0 else (if u[0].id in ids then 1 else 0) + CountIn(u[1..], ids)
  }

  lemma {:induction false} CountInAppend(a: seq<IssueRow>, b: seq<IssueRow>, ids: set<int>)
    ensures CountIn(a + b, ids) == CountIn(a, ids) + CountIn(b, ids)
  {
    if a == [] {
      assert a + b == b;
    } else {
      assert (a + b)[1..] == a[1..] + b;
      CountInAppend(a[1..], b, ids);
    }
  }

  lemma {:induction false} CountInAll(u: seq<IssueRow>, ids: set<int>)
    requires forall i :: 0 <= i < |u| ==> u[i].id in ids
    ensures CountIn(u, ids) == |u|
  {
    if u != [] {
      CountInAll(u[1..], ids);
    }
  }

  lemma {:induction false} CountInNone(u: seq<IssueRow>, ids: set<int>)
    requires forall i :: 0 <= i < |u| ==> u[i].id !in ids
    ensures CountIn(u, ids) == 0
  {
    if u != [] {
      CountInNone(u[1..], ids);
    }
  }

  /** After marking `ids`, the unprocessed rows are the old ones less those whose id was marked. */
  lemma {:induction false} MarkCount(rows: seq<IssueRow>, ids: set<int>)
    ensures |Unprocessed(MarkProcessed(rows, ids))| + CountIn(Unprocessed(rows), ids) == |Unprocessed(rows)|
  {
    if rows != [] {
      MarkCount(rows[1..], ids);
      var m := MarkProcessed(rows, ids);
      assert m[1..] == MarkProcessed(rows[1..], ids);
      if !rows[0].processed {
        assert Unprocessed(rows)[1..] == Unprocessed(rows[1..]);
      }
    }
  }

  lemma LaterNotInBatch(u: seq<IssueRow>, n: nat, m: nat)
    requires Ascending(u) && n <= m < |u|
    ensures u[m].id !in BatchIds(u[..n])
  {
    forall q | q in u[..n] ensures q.id != u[m].id {
      var k :| 0 <= k < n && u[..n][k] == q;
      assert u[k] == q;
    }
  }

  /** Marking a batch removes exactly the batch from the unprocessed rows. */
  lemma MarkBatchCount(rows: seq<IssueRow>)
    requires WellFormed(rows)
    ensures |Unprocessed(MarkProcessed(rows, BatchIds(Batch(rows))))| == |Unprocessed(rows)| - |Batch(rows)|
  {
    var u := Unprocessed(rows);
    var b := Batch(rows);
    var ids := BatchIds(b);
    var rest := u[|b|..];
    UnprocessedAscending(rows);
    MarkCount(rows, ids);
    assert u == b + rest;
    CountInAppend(b, rest, ids);
    assert forall i :: 0 <= i < |b| ==> b[i] in b;
    CountInAll(b, ids);
    forall i | 0 <= i < |rest| ensures rest[i].id !in ids {
      LaterNotInBatch(u, |b|, |b| + i);
    }
    CountInNone(rest, ids);
  }

  lemma MarkKeepsWellFormed(rows: seq<IssueRow>, ids: set<int>)
    requires WellFormed(rows)
    ensures WellFormed(MarkProcessed(rows, ids))
  {
  }

  /** A row whose id is in the batch is the batch's row: ids are unique. */
  lemma InBatchById(rows: seq<IssueRow>, k: nat)
    requires WellFormed(rows) && k < |rows|
    ensures rows[k].id in BatchIds(Batch(rows)) <==> rows[k] in Batch(rows)
  {
    var b := Batch(rows);
    if rows[k].id in BatchIds(b) {
      var q :| q in b && q.id == rows[k].id;
      var j :| 0 <= j < |b| && b[j] == q;
      var kq := UnprocessedIndex(rows, j);
      assert kq == k;
    }
  }

  // ---------------------------------------------------------------- the whole loop

  datatype RunOutcome = Finished | Livelock | Error(reason: FailReason)

  /**
   * The whole `for` loop of VectorizeIssues: the final state, how it ended, and
   * how many batches were started. A failed mark update is reported as
   * Livelock: the next iteration would select the same rows again and end the
   * same way for ever (MarkFailureRepeats).
   */
  function Run(s: State, svc: Services): (State, RunOutcome, nat)
    requires WellFormed(s.rows)
    decreases |Unprocessed(s.rows)|
  {
    var step := Step(s, svc);
    match step.1
    case NothingToDo => (s, Finished, 0)
    case MarkFailed => (step.0, Livelock, 1)
    case Failed(reason) => (step.0, Error(reason), 1)
    case Committed =>
      StepCommittedRows(s, svc);
      MarkBatchCount(s.rows);
      MarkKeepsWellFormed(s.rows, BatchIds(Batch(s.rows)));
      var rest := Run(step.0, svc);
      (rest.0, rest.1, rest.2 + 1)
  }

  /** A committed batch is one batch more than the run from the state it leaves. */
  lemma RunCommitted(s: State, svc: Services)
    requires WellFormed(s.rows) && Step(s, svc).1 == Committed
    ensures WellFormed(Step(s, svc).0.rows)
    ensures |Unprocessed(Step(s, svc).0.rows)| < |Unprocessed(s.rows)|
    ensures var rest := Run(Step(s, svc).0, svc); Run(s, svc) == (rest.0, rest.1, rest.2 + 1)
  {
    var step := Step(s, svc);
    StepCommittedRows(s, svc);
    MarkBatchCount(s.rows);
    MarkKeepsWellFormed(s.rows, BatchIds(Batch(s.rows)));
    assert WellFormed(step.0.rows);
    var rest := Run(step.0, svc);
    assert Run(s, svc) == (rest.0, rest.1, rest.2 + 1);
  }

  /** A committed batch leaves the table with exactly the batch's rows marked. */
  lemma StepCommittedRows(s: State, svc: Services)
    requires Step(s, svc).1 == Committed
    ensures Step(s, svc).0.rows == MarkProcessed(s.rows, BatchIds(Batch(s.rows)))
  {
  }

  /** With no unprocessed row the run ends at once, unchanged. */
  lemma RunDone(s: State, svc: Services)
    requires WellFormed(s.rows) && |Unprocessed(s.rows)| == 0
    ensures Run(s, svc) == (s, Finished, 0)
  {
  }

  /** A batch that does not commit ends the run, after that one batch. */
  lemma RunStopped(s: State, svc: Services)
    requires WellFormed(s.rows) && |Unprocessed(s.rows)| > 0 && Step(s, svc).1 != Committed
    ensures Step(s, svc).1.MarkFailed? || Step(s, svc).1.Failed?
    ensures Run(s, svc) == (Step(s, svc).0, if Step(s, svc).1.MarkFailed? then Livelock else Error(Step(s, svc).1.reason), 1)
  {
  }

  // ---------------------------------------------------------------- failure and commit

  /**
   * Every outcome but a commit leaves every row and its processed flag as it
   * was; a commit marks exactly the batch's rows processed and changes no
   * other row.
   */
  lemma StepFlags(s: State, svc: Services)
    requires WellFormed(s.rows)
    ensures Step(s, svc).1 != Committed ==> Step(s, svc).0.rows == s.rows
    ensures Step(s, svc).1 == Committed ==>
      var rows1 := Step(s, svc).0.rows;
      |rows1| == |s.rows|
      && forall i :: 0 <= i < |s.rows| ==>
           rows1[i] == if s.rows[i] in Batch(s.rows) then s.rows[i].(processed := true) else s.rows[i]
  {
    if Step(s, svc).1 == Committed {
      forall i | 0 <= i < |s.rows| {
        InBatchById(s.rows, i);
      }
    }
  }

  /** The overwrite-by-id insertions of a batch do not depend on what the collection held. */
  lemma {:induction false} AddFromUnion(d: map<string, Document>, slots: seq<BatchItem>, embs: seq<Embedding>,
                                        addOk: Document -> bool, i: nat)
    requires i <= |embs|
    ensures var fromEmpty := AddFrom(map[], slots, embs, addOk, i);
      AddFrom(d, slots, embs, addOk, i) == (d + fromEmpty.0, fromEmpty.1)
    decreases |embs| - i
  {
    if i < |embs| && i < |slots| && addOk(DocFor(slots[i], embs[i])) {
      var doc := DocFor(slots[i], embs[i]);
      AddFromUnion(d[doc.id := doc], slots, embs, addOk, i + 1);
      AddFromUnion(map[doc.id := doc], slots, embs, addOk, i + 1);
      UpdateThenUnion(d, doc.id, doc, AddFrom(map[], slots, embs, addOk, i + 1).0);
    } else {
      assert d + map[] == d;
    }
  }

  lemma UpdateThenUnion<K, V>(d: map<K, V>, k: K, v: V, rest: map<K, V>)
    ensures d[k := v] + rest == d + (map[k := v] + rest)
  {
  }

  /** Adding the same batch twice leaves what adding it once left. */
  lemma AddFromTwice(d: map<string, Document>, slots: seq<BatchItem>, embs: seq<Embedding>, addOk: Document -> bool)
    ensures var once := AddFrom(d, slots, embs, addOk, 0);
      AddFrom(once.0, slots, embs, addOk, 0) == once
  {
    AddFromUnion(d, slots, embs, addOk, 0);
    var once := AddFrom(d, slots, embs, addOk, 0);
    AddFromUnion(once.0, slots, embs, addOk, 0);
    var fromEmpty := AddFrom(map[], slots, embs, addOk, 0).0;
    assert d + fromEmpty + fromEmpty == d + fromEmpty;
  }

  /**
   * A failed mark update is a fixed point: the next iteration re-selects the
   * same rows, re-adds the same documents and fails the same way.
   */
  lemma MarkFailureRepeats(s: State, svc: Services)
    requires Step(s, svc).1 == MarkFailed
    ensures Step(Step(s, svc).0, svc) == Step(s, svc)
  {
    var batch := Batch(s.rows);
    AddFromTwice(s.docs, Slots(batch, svc.parse), svc.embed(Requests(batch, svc.parse)).value, svc.addDocument);
  }

  /**
   * Crash safety: after an embedding or save failure, or a failed mark update,
   * re-running the vectorizer (with any save and mark behaviour) ends exactly
   * as running it from the state before the failed batch would.
   */
  lemma RetryAfterFailure(s: State, svc: Services, save: map<string, Document> -> bool, mark: string -> bool)
    requires WellFormed(s.rows)
    requires Step(s, svc).1 in {Failed(EmbedFailed), Failed(SaveFailed), MarkFailed}
    ensures Run(Step(s, svc).0, svc.(saveDb := save, markProcessed := mark))
         == Run(s, svc.(saveDb := save, markProcessed := mark))
  {
    var svc2 := svc.(saveDb := save, markProcessed := mark);
    RetryStep(s, svc, svc2);
    RunSameStep(Step(s, svc).0, s, svc2);
  }

  /** Two states with the same rows, at least one unprocessed, and the same next step run alike. */
  lemma RunSameStep(a: State, b: State, svc: Services)
    requires WellFormed(a.rows) && a.rows == b.rows && |Unprocessed(a.rows)| > 0
    requires Step(a, svc) == Step(b, svc)
    ensures Run(a, svc) == Run(b, svc)
  {
  }

  /** The step retried after a failed batch is the step that batch would take. */
  lemma RetryStep(s: State, svc: Services, svc2: Services)
    requires Step(s, svc).1 in {Failed(EmbedFailed), Failed(SaveFailed), MarkFailed}
    requires svc2.parse == svc.parse && svc2.embed == svc.embed && svc2.addDocument == svc.addDocument
    ensures Step(s, svc).0.rows == s.rows && |Unprocessed(s.rows)| > 0
    ensures Step(Step(s, svc).0, svc2) == Step(s, svc2)
  {
    var batch := Batch(s.rows);
    var reqs := Requests(batch, svc.parse);
    if svc.embed(reqs).Some? {
      var slots := Slots(batch, svc.parse);
      var added := AddFrom(s.docs, slots, svc.embed(reqs).value, svc.addDocument, 0);
      assert Step(s, svc) == Persist(s, batch, added, svc);
      AddFromTwice(s.docs, slots, svc.embed(reqs).value, svc.addDocument);
      var s1 := Step(s, svc).0;
      assert s1 == State(s.rows, added.0);
      assert Step(s1, svc2) == Persist(s1, batch, added, svc2);
      PersistRowsOnly(s1, s, batch, added, svc2);
    }
  }

  /** What follows the insertions depends on the table, not on the documents before them. */
  lemma PersistRowsOnly(a: State, b: State, batch: seq<IssueRow>, added: (map<string, Document>, Option<FailReason>), svc: Services)
    requires a.rows == b.rows
    ensures Persist(a, batch, added, svc) == Persist(b, batch, added, svc)
  {
  }

  /** Once a run has finished, running again changes nothing and embeds nothing. */
  lemma {:induction false} RunFinishedIsQuiescent(s: State, svc: Services)
    requires WellFormed(s.rows)
    requires Run(s, svc).1 == Finished
    ensures WellFormed(Run(s, svc).0.rows)
    ensures Run(Run(s, svc).0, svc) == (Run(s, svc).0, Finished, 0)
    decreases |Unprocessed(s.rows)|
  {
    var step := Step(s, svc);
    if step.1 == Committed {
      RunCommitted(s, svc);
      RunFinishedIsQuiescent(step.0, svc);
    }
  }

  // ---------------------------------------------------------------- a run without failures

  /** Services that never fail, and an embedder that returns one vector per request. */
  ghost predicate Reliable(svc: Services) {
    && (forall reqs :: svc.embed(reqs).Some? && |svc.embed(reqs).value| == |reqs|)
    && (forall d :: svc.addDocument(d))
    && (forall docs :: svc.saveDb(docs))
    && (forall ids :: svc.markProcessed(ids))
  }

  lemma {:induction false} AddFromSucceeds(d: map<string, Document>, slots: seq<BatchItem>, embs: seq<Embedding>,
                                           addOk: Document -> bool, i: nat)
    requires i <= |embs| <= |slots|
    requires forall doc :: addOk(doc)
    ensures AddFrom(d, slots, embs, addOk, i).1 == None
    decreases |embs| - i
  {
    if i < |embs| {
      var doc := DocFor(slots[i], embs[i]);
      assert addOk(doc);
      assert AddFrom(d, slots, embs, addOk, i).1 == AddFrom(d[doc.id := doc], slots, embs, addOk, i + 1).1;
      AddFromSucceeds(d[doc.id := doc], slots, embs, addOk, i + 1);
    }
  }

  /** A key no remaining slot carries keeps its document. */
  lemma {:induction false} AddFromFrame(d: map<string, Document>, slots: seq<BatchItem>, embs: seq<Embedding>,
                                        addOk: Document -> bool, i: nat, k: string)
    requires i <= |embs|
    requires forall j :: i <= j < |embs| && j < |slots| ==> Itoa(slots[j].id) != k
    ensures var r := AddFrom(d, slots, embs, addOk, i).0; (k in r <==> k in d) && (k in d ==> r[k] == d[k])
    decreases |embs| - i
  {
    if i < |embs| && i < |slots| {
      var doc := DocFor(slots[i], embs[i]);
      if addOk(doc) {
        AddFromFrame(d[doc.id := doc], slots, embs, addOk, i + 1, k);
      }
    }
  }

  /** A successful batch stores slot j's document unless a later slot has the same key. */
  lemma {:induction false} AddFromLast(d: map<string, Document>, slots: seq<BatchItem>, embs: seq<Embedding>,
                                       addOk: Document -> bool, i: nat, j: nat)
    requires i <= j < |embs| <= |slots|
    requires forall doc :: addOk(doc)
    requires forall m :: j < m < |embs| ==> Itoa(slots[m].id) != Itoa(slots[j].id)
    ensures var r := AddFrom(d, slots, embs, addOk, i).0;
      Itoa(slots[j].id) in r && r[Itoa(slots[j].id)] == DocFor(slots[j], embs[j])
    decreases |embs| - i
  {
    var doc := DocFor(slots[i], embs[i]);
    if i == j {
      AddFromFrame(d[doc.id := doc], slots, embs, addOk, i + 1, Itoa(slots[j].id));
    } else {
      AddFromLast(d[doc.id := doc], slots, embs, addOk, i + 1, j);
    }
  }

  /** With reliable services, a batch is committed: its documents stored, its rows marked. */
  lemma StepReliable(s: State, svc: Services)
    requires WellFormed(s.rows) && Reliable(svc) && |Unprocessed(s.rows)| > 0
    ensures var batch := Batch(s.rows);
      var embs := svc.embed(Requests(batch, svc.parse)).value;
      && |embs| == |batch|
      && Step(s, svc) == (State(MarkProcessed(s.rows, BatchIds(batch)),
                                AddFrom(s.docs, Slots(batch, svc.parse), embs, svc.addDocument, 0).0), Committed)
  {
    var batch := Batch(s.rows);
    var embs := svc.embed(Requests(batch, svc.parse)).value;
    AddFromSucceeds(s.docs, Slots(batch, svc.parse), embs, svc.addDocument, 0);
  }

  /**
   * With reliable services a run finishes after ceil(n / 100) batches, where n
   * is the number of unprocessed rows, and leaves no row unprocessed.
   */
  lemma {:induction false} RunReliable(s: State, svc: Services)
    requires WellFormed(s.rows) && Reliable(svc)
    ensures Run(s, svc).1 == Finished
    ensures Run(s, svc).2 == (|Unprocessed(s.rows)| + BatchSize - 1) / BatchSize
    ensures |Unprocessed(Run(s, svc).0.rows)| == 0
    decreases |Unprocessed(s.rows)|
  {
    if |Unprocessed(s.rows)| > 0 {
      StepReliable(s, svc);
      RunCommitted(s, svc);
      MarkBatchCount(s.rows);
      RunReliable(Step(s, svc).0, svc);
    }
  }

  /** A document no unprocessed row maps to is left as it was by a reliable run. */
  lemma {:induction false} RunReliableFrame(s: State, svc: Services, key: string)
    requires WellFormed(s.rows) && Reliable(svc)
    requires forall k :: 0 <= k < |s.rows| && !s.rows[k].processed ==> key != Itoa(s.rows[k].id)
    ensures var f := Run(s, svc).0; (key in f.docs <==> key in s.docs) && (key in s.docs ==> f.docs[key] == s.docs[key])
    decreases |Unprocessed(s.rows)|
  {
    if |Unprocessed(s.rows)| > 0 {
      var batch := Batch(s.rows);
      var slots := Slots(batch, svc.parse);
      var embs := svc.embed(Requests(batch, svc.parse)).value;
      StepReliable(s, svc);
      RunCommitted(s, svc);
      StepFlags(s, svc);
      var s1 := Step(s, svc).0;
      forall j | 0 <= j < |embs| && j < |slots| ensures Itoa(slots[j].id) != key {
        assert slots[j] == Item(batch[j], svc.parse);
        var k := UnprocessedIndex(s.rows, j);
      }
      AddFromFrame(s.docs, slots, embs, svc.addDocument, 0, key);
      RunReliableFrame(s1, svc, key);
    }
  }

  /**
   * A reliable run stores, for every row that was unprocessed, a document
   * under the row's decimal id holding that row's content and labels.
   */
  lemma {:induction false} RunReliableEmbeds(s: State, svc: Services, k: nat)
    requires WellFormed(s.rows) && Reliable(svc)
    requires k < |s.rows| && !s.rows[k].processed
    ensures var f := Run(s, svc).0; var key := Itoa(s.rows[k].id);
      && key in f.docs
      && f.docs[key].embedding.Some?
      && f.docs[key] == DocFor(Item(s.rows[k], svc.parse), f.docs[key].embedding.value)
    decreases |Unprocessed(s.rows)|
  {
    var i := UnprocessedHas(s.rows, k);
    if i < |Batch(s.rows)| {
      EmbedsInBatch(s, svc, k, i);
    } else {
      StepReliable(s, svc);
      RunCommitted(s, svc);
      StepFlags(s, svc);
      OutsideBatch(s.rows, k, i);
      RunReliableEmbeds(Step(s, svc).0, svc, k);
    }
  }

  /** RunReliableEmbeds for a row of the current batch: its document is added now and never replaced. */
  lemma EmbedsInBatch(s: State, svc: Services, k: nat, i: nat)
    requires WellFormed(s.rows) && Reliable(svc)
    requires k < |s.rows| && !s.rows[k].processed
    requires i < |Batch(s.rows)| && Unprocessed(s.rows)[i] == s.rows[k]
    ensures var f := Run(s, svc).0; var key := Itoa(s.rows[k].id);
      && key in f.docs
      && f.docs[key].embedding.Some?
      && f.docs[key] == DocFor(Item(s.rows[k], svc.parse), f.docs[key].embedding.value)
  {
    var r := s.rows[k];
    BatchDocStored(s, svc, k, i);
    StepReliable(s, svc);
    RunCommitted(s, svc);
    StepFlags(s, svc);
    var s1 := Step(s, svc).0;
    assert Batch(s.rows)[i] == r;
    MarkedKeyGone(s.rows, s1.rows, k);
    RunReliableFrame(s1, svc, Itoa(r.id));
  }

  /** The batch step stores a batch row's document under its key. */
  lemma BatchDocStored(s: State, svc: Services, k: nat, i: nat)
    requires WellFormed(s.rows) && Reliable(svc)
    requires k < |s.rows| && i < |Batch(s.rows)| && Unprocessed(s.rows)[i] == s.rows[k]
    ensures var d := Step(s, svc).0.docs; var key := Itoa(s.rows[k].id);
      && key in d
      && d[key] == DocFor(Item(s.rows[k], svc.parse), svc.embed(Requests(Batch(s.rows), svc.parse)).value[i])
  {
    var r := s.rows[k];
    var batch := Batch(s.rows);
    var slots := Slots(batch, svc.parse);
    var embs := svc.embed(Requests(batch, svc.parse)).value;
    StepReliable(s, svc);
    assert batch[i] == r;
    assert slots[i] == Item(r, svc.parse);
    forall m | i < m < |embs| ensures Itoa(slots[m].id) != Itoa(slots[i].id) {
      SlotKeysDistinct(s.rows, svc.parse, i, m);
    }
    AddFromLast(s.docs, slots, embs, svc.addDocument, 0, i);
  }

  /** An unprocessed row past the first 100 is not in the batch. */
  lemma OutsideBatch(rows: seq<IssueRow>, k: nat, i: nat)
    requires WellFormed(rows) && k < |rows| && !rows[k].processed
    requires i < |Unprocessed(rows)| && Unprocessed(rows)[i] == rows[k] && i >= |Batch(rows)|
    ensures rows[k] !in Batch(rows)
  {
    var batch, u := Batch(rows), Unprocessed(rows);
    UnprocessedAscending(rows);
    forall j | 0 <= j < |batch| ensures batch[j] != rows[k] {
      assert batch[j] == u[j];
    }
  }

  /** Two slots of a batch are stored under different keys. */
  lemma SlotKeysDistinct(rows: seq<IssueRow>, parse: string -> Option<seq<Label>>, i: nat, m: nat)
    requires WellFormed(rows) && i < m < |Batch(rows)|
    ensures Itoa(Slots(Batch(rows), parse)[m].id) != Itoa(Slots(Batch(rows), parse)[i].id)
  {
    var batch := Batch(rows);
    BatchAscending(rows);
    BatchRowsUnprocessed(rows);
    assert batch[i].id < batch[m].id;
    assert Slots(batch, parse)[m].id == batch[m].id && Slots(batch, parse)[i].id == batch[i].id;
    if Itoa(batch[m].id) == Itoa(batch[i].id) {
      var km :| 0 <= km < |rows| && rows[km] == batch[m];
      var ki :| 0 <= ki < |rows| && rows[ki] == batch[i];
      ItoaInjective(batch[m].id, batch[i].id);
    }
  }

  /**
   * Once row `k` is marked processed, no row left unprocessed shares its key:
   * row ids are distinct and 64-bit.
   */
  lemma MarkedKeyGone(rows: seq<IssueRow>, rows1: seq<IssueRow>, k: nat)
    requires WellFormed(rows) && |rows1| == |rows| && k < |rows| && rows1[k].processed
    requires forall j :: 0 <= j < |rows| ==> rows1[j].id == rows[j].id
    ensures forall kq :: 0 <= kq < |rows1| && !rows1[kq].processed ==> Itoa(rows[k].id) != Itoa(rows1[kq].id)
  {
    forall kq | 0 <= kq < |rows1| && !rows1[kq].processed ensures Itoa(rows[k].id) != Itoa(rows1[kq].id) {
      assert kq != k;
      if Itoa(rows[k].id) == Itoa(rows1[kq].id) {
        ItoaInjective(rows[k].id, rows1[kq].id);
      }
    }
  }

  // ---------------------------------------------------------------- the imperative loop

  /**
   * The `for rows.Next()` loop: fills the 100-slot `batchItems` buffer in
   * place and appends each row's id and embedding request.
   */
  method BuildBatch(batch: seq<IssueRow>, parse: string -> Option<seq<Label>>)
    returns (slots: array<BatchItem>, ids: seq<string>, requests: seq<EmbedRequest>)
    requires |batch| <= BatchSize
    ensures fresh(slots)
    ensures slots[..] == Slots(batch, parse)
    ensures ids == IdStrings(batch) && requests == Requests(batch, parse)
  {
    slots := new BatchItem[BatchSize](_ => ZeroItem);
    ids := [];
    requests := [];
    var count := 0;
    while count < |batch|
      invariant 0 <= count <= |batch|
      invariant forall i :: 0 <= i < count ==> slots[i] == Item(batch[i], parse)
      invariant forall i :: count <= i < BatchSize ==> slots[i] == ZeroItem
      invariant ids == IdStrings(batch[..count]) && requests == Requests(batch[..count], parse)
    {
      var row := batch[count];
      var labelsText := ParseLabels(row.labels, parse);
      assert labelsText == LabelsText(row.labels, parse);
      var content := Content(row.title, row.description, labelsText);
      BatchPrefixStep(batch, parse, count);
      requests := requests + [EmbedRequest(row.title, content)];
      ids := ids + [Itoa(row.id)];
      slots[count] := BatchItem(row.id, content, row.labels);
      count := count + 1;
    }
    assert batch[..count] == batch;
    assert forall i :: 0 <= i < BatchSize ==> slots[..][i] == Slots(batch, parse)[i];
  }

  lemma BatchPrefixStep(batch: seq<IssueRow>, parse: string -> Option<seq<Label>>, count: nat)
    requires count < |batch|
    ensures IdStrings(batch[..count + 1]) == IdStrings(batch[..count]) + [Itoa(batch[count].id)]
    ensures Requests(batch[..count + 1], parse) == Requests(batch[..count], parse) + [EmbedRequest(batch[count].title, Item(batch[count], parse).content)]
  {
  }

  /** AddDocument for each embedding, paired by position with the buffer's slots. */
  method AddEmbeddings(collection: Collection, slots: array<BatchItem>, embs: seq<Embedding>, addOk: Document -> bool)
    returns (fail: Option<FailReason>)
    modifies collection
    ensures (collection.docs, fail) == AddFrom(old(collection.docs), slots[..], embs, addOk, 0)
  {
    ghost var items := slots[..];
    var i := 0;
    while i < |embs|
      invariant 0 <= i <= |embs| && items == slots[..]
      invariant AddFrom(collection.docs, items, embs, addOk, i) == AddFrom(old(collection.docs), items, embs, addOk, 0)
    {
      if i >= slots.Length {
        return Some(IndexOutOfRange);
      }
      var doc := DocFor(slots[i], embs[i]);
      if !addOk(doc) {
        return Some(AddFailed(slots[i].id));
      }
      collection.docs := collection.docs[doc.id := doc];
      i := i + 1;
    }
    return None;
  }

  /**
   * One iteration of the batch loop on a table with unprocessed rows: select
   * the batch, embed it, add its documents, save, and mark it processed.
   */
  method ProcessBatch(store: IssueStore, collection: Collection, svc: Services) returns (outcome: BatchOutcome)
    requires WellFormed(store.rows) && |Unprocessed(store.rows)| > 0
    modifies store, collection
    ensures (State(store.rows, collection.docs), outcome) == Step(old(State(store.rows, collection.docs)), svc)
  {
    ghost var before := State(store.rows, collection.docs);
    var batch := Batch(store.rows);
    var slots, ids, requests := BuildBatch(batch, svc.parse);
    var embedded := svc.embed(requests);
    if embedded.None? {
      return Failed(EmbedFailed);
    }
    var fail := AddEmbeddings(collection, slots, embedded.value, svc.addDocument);
    assert Step(before, svc) == Persist(before, batch, (collection.docs, fail), svc);
    if fail.Some? {
      return Failed(fail.value);
    }
    if !svc.saveDb(collection.docs) {
      return Failed(SaveFailed);
    }
    if !svc.markProcessed(Join(ids, ",")) {
      return MarkFailed;
    }
    store.rows := MarkProcessed(store.rows, BatchIds(batch));
    return Committed;
  }

  /**
   * VectorizeIssues: batches until no row is unprocessed or a batch fails. A
   * failed mark update, which the source only prints before selecting the
   * same rows again, ends the model's loop with Livelock.
   */
  method VectorizeIssues(store: IssueStore, collection: Collection, svc: Services)
    returns (outcome: RunOutcome, batches: nat)
    requires WellFormed(store.rows)
    modifies store, collection
    ensures (State(store.rows, collection.docs), outcome, batches) == Run(old(State(store.rows, collection.docs)), svc)
  {
    ghost var target := Run(State(store.rows, collection.docs), svc);
    var totalCount := |Unprocessed(store.rows)|;
    if totalCount == 0 {
      RunDone(State(store.rows, collection.docs), svc);
      return Finished, 0;
    }
    batches := 0;
    ghost var cur := State(store.rows, collection.docs);
    while true
      invariant cur == State(store.rows, collection.docs) && WellFormed(cur.rows)
      invariant batches <= target.2 && Run(cur, svc) == (target.0, target.1, target.2 - batches)
      decreases |Unprocessed(cur.rows)|
    {
      var count := |Unprocessed(store.rows)|;
      if count == 0 {
        RunDone(cur, svc);
        return Finished, batches;
      }
      batches := batches + 1;
      var step := ProcessBatch(store, collection, svc);
      ghost var next := State(store.rows, collection.docs);
      if step == Committed {
        RunCommitted(cur, svc);
        cur := next;
      } else {
        RunStopped(cur, svc);
        return if step == MarkFailed then Livelock else Error(step.reason), batches;
      }
    }
  }
}
