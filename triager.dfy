/**
 * The triager's vector rebuild (pkg/cmd/triager/triager.go): the collection
 * "issues" is dropped and recreated, every row of the `issues` table that has
 * labels becomes one document (id = the row id in decimal), the documents are
 * handed to the collection 300 at a time with the remainder last, and the
 * database is exported. Also its flag validation and its restore step.
 */
module Triager {
  import opened Common
  import opened Strings
  import opened Seqs

  const ChunkSize: nat := 300
  const ExportKey := "super-strong-key"

  /** A row of the `issues` table, in the order the unordered SELECT returns them. */
  datatype IssueRow = IssueRow(id: int, title: string, description: string, labels: string, raw: string)

  /** Row ids are distinct 64-bit integers (the table's primary key). */
  predicate DistinctIds(rows: seq<IssueRow>) {
    && (forall i :: 0 <= i < |rows| ==> MinInt64 <= rows[i].id <= MaxInt64)
    && (forall i, j :: 0 <= i < j < |rows| ==> rows[i].id != rows[j].id)
  }

  /** The label parser, the collection's AddDocuments and the database export. */
  datatype Services = Services(
    parse: string -> Option<seq<Label>>,   // json.Unmarshal into []Label
    addDocuments: seq<Document> -> bool,   // collection.AddDocuments succeeds
    exportDb: map<string, Document> -> bool) // db.Export(vectorDb, true, key) succeeds

  /**
   * The document text. The `\n` after "labels" and "Description" sits in a
   * raw string literal, so it is a backslash and an `n`, not a line break.
   */
  function Content(title: string, labelsText: string, description: string): string
  {
    "# " + title + "## labels \\n" + labelsText + "## Description \\n" + description + "\n\t\t\t"
  }

  function DocOf(row: IssueRow, labels: seq<Label>): Document
  {
    Document(Itoa(row.id), Content(row.title, LabelNames(labels), row.description), None, map[])
  }

  /**
   * The documents the `for rows.Next()` loop builds from `rows`, in order:
   * rows with an empty label string are skipped, and the first label string
   * that does not parse stops the loop, reported with that row's id.
   */
  function Documents(rows: seq<IssueRow>, parse: string -> Option<seq<Label>>): (seq<Document>, Option<int>)
  {
    if rows == [] then ([], None)
    else
      var prev := Documents(rows[..|rows| - 1], parse);
      var row := rows[|rows| - 1];
      if prev.1.Some? || row.labels == "" then prev
      else match parse(row.labels)
        case None => (prev.0, Some(row.id))
        case Some(labels) => (prev.0 + [DocOf(row, labels)], None)
  }

  // ---------------------------------------------------------------- chunks of 300

  /** The complete chunks of 300 documents, in order. */
  function FullChunks(ds: seq<Document>): (r: seq<seq<Document>>)
    ensures |r| == |ds| / ChunkSize
  {
    seq(|ds| / ChunkSize, k requires 0 <= k < |ds| / ChunkSize => ds[k * ChunkSize .. k * ChunkSize + ChunkSize])
  }

  /** The documents after the last complete chunk. */
  function Remainder(ds: seq<Document>): seq<Document>
  {
    ds[|ds| - |ds| % ChunkSize..]
  }

  /** Every AddDocuments call, in order: the complete chunks, then a non-empty remainder. */
  function Chunks(ds: seq<Document>): seq<seq<Document>>
  {
    FullChunks(ds) + (if |ds| % ChunkSize == 0 then [] else [Remainder(ds)])
  }

  lemma ChunkFull(count: int)
    requires 0 < count <= ChunkSize
    ensures count % ChunkSize == 0 <==> count == ChunkSize
  {
  }

  /** Appending one document either extends the remainder or completes a chunk. */
  lemma FullChunksAppend(ds: seq<Document>, d: Document)
    ensures (|ds| + 1) % ChunkSize == if |ds| % ChunkSize + 1 == ChunkSize then 0 else |ds| % ChunkSize + 1
    ensures (|ds| + 1) % ChunkSize != 0 ==>
      FullChunks(ds + [d]) == FullChunks(ds) && Remainder(ds + [d]) == Remainder(ds) + [d]
    ensures (|ds| + 1) % ChunkSize == 0 ==>
      FullChunks(ds + [d]) == FullChunks(ds) + [Remainder(ds) + [d]] && Remainder(ds + [d]) == []
  {
    var e := ds + [d];
    var q := |ds| / ChunkSize;
    assert |ds| == q * ChunkSize + |ds| % ChunkSize;
    forall k | 0 <= k < q ensures e[k * ChunkSize .. k * ChunkSize + ChunkSize] == ds[k * ChunkSize .. k * ChunkSize + ChunkSize] {
      assert k * ChunkSize + ChunkSize <= q * ChunkSize;
    }
    if (|ds| + 1) % ChunkSize == 0 {
      assert |e| / ChunkSize == q + 1;
      assert e[q * ChunkSize .. q * ChunkSize + ChunkSize] == Remainder(ds) + [d];
      assert FullChunks(e) == FullChunks(ds) + [Remainder(ds) + [d]];
    } else {
      assert |e| / ChunkSize == q && |e| % ChunkSize == |ds| % ChunkSize + 1;
      assert FullChunks(e) == FullChunks(ds);
    }
  }

  /**
   * The chunks are the documents, cut into consecutive pieces: all of 300
   * but possibly the last, which holds between 1 and 299.
   */
  lemma {:induction false} ChunksConcat(ds: seq<Document>)
    ensures Concat(FullChunks(ds)) + Remainder(ds) == ds
    ensures Concat(Chunks(ds)) == ds
    ensures forall k :: 0 <= k < |FullChunks(ds)| ==> |FullChunks(ds)[k]| == ChunkSize
    ensures |ds| % ChunkSize != 0 ==> 0 < |Remainder(ds)| < ChunkSize
    decreases |ds|
  {
    if ds == [] {
      assert Remainder(ds) == [];
    } else {
      var init := ds[..|ds| - 1];
      var d := ds[|ds| - 1];
      assert init + [d] == ds;
      ChunksConcat(init);
      FullChunksAppend(init, d);
      if |ds| % ChunkSize == 0 {
        ConcatAppend(FullChunks(init), [Remainder(init) + [d]]);
        assert Concat([Remainder(init) + [d]]) == Remainder(init) + [d];
      }
    }
    if |ds| % ChunkSize != 0 {
      ConcatAppend(FullChunks(ds), [Remainder(ds)]);
      assert Concat([Remainder(ds)]) == Remainder(ds);
    } else {
      assert Chunks(ds) == FullChunks(ds);
      assert Remainder(ds) == [];
    }
  }

  // ---------------------------------------------------------------- adding to the collection

  /** The documents of `ds` added to `m` in order, each replacing any document with its id. */
  function Insert(m: map<string, Document>, ds: seq<Document>): map<string, Document>
  {
    if ds == [] then m else Insert(m, ds[..|ds| - 1])[ds[|ds| - 1].id := ds[|ds| - 1]]
  }

  lemma {:induction false} InsertAppend(m: map<string, Document>, a: seq<Document>, b: seq<Document>)
    ensures Insert(m, a + b) == Insert(Insert(m, a), b)
    decreases |b|
  {
    if b == [] {
      assert a + b == a;
    } else {
      assert (a + b)[..|a + b| - 1] == a + b[..|b| - 1];
      InsertAppend(m, a, b[..|b| - 1]);
    }
  }

  /** AddDocuments for each chunk in turn, stopping at the first failure. */
  function Flush(m: map<string, Document>, chunks: seq<seq<Document>>, add: seq<Document> -> bool): (map<string, Document>, bool)
  {
    if chunks == [] then (m, true)
    else
      var prev := Flush(m, chunks[..|chunks| - 1], add);
      if !prev.1 then prev
      else if add(chunks[|chunks| - 1]) then (Insert(prev.0, chunks[|chunks| - 1]), true)
      else (prev.0, false)
  }

  /** Once a chunk has failed, later chunks change nothing. */
  lemma {:induction false} FlushFailed(m: map<string, Document>, chunks: seq<seq<Document>>, k: nat, add: seq<Document> -> bool)
    requires k <= |chunks| && !Flush(m, chunks[..k], add).1
    ensures Flush(m, chunks, add) == Flush(m, chunks[..k], add)
    decreases |chunks| - k
  {
    if k < |chunks| {
      assert chunks[..k + 1][..k] == chunks[..k];
      FlushFailed(m, chunks, k + 1, add);
    } else {
      assert chunks[..k] == chunks;
    }
  }

  /** Successful chunked adds leave what adding all their documents in order leaves. */
  lemma {:induction false} FlushInserts(m: map<string, Document>, chunks: seq<seq<Document>>, add: seq<Document> -> bool)
    requires Flush(m, chunks, add).1
    ensures Flush(m, chunks, add).0 == Insert(m, Concat(chunks))
  {
    if chunks != [] {
      var init := chunks[..|chunks| - 1];
      var last := chunks[|chunks| - 1];
      FlushInserts(m, init, add);
      assert init + [last] == chunks;
      ConcatAppend(init, [last]);
      assert Concat([last]) == last;
      InsertAppend(m, Concat(init), last);
    }
  }

  // ---------------------------------------------------------------- the rebuild

  datatype Failure = NoIssues | BadLabels(id: int) | AddFailed | ExportFailed

  /**
   * updateVectorsDb: the collection it leaves and its error. An empty table
   * is an error that leaves the collection alone; otherwise the collection is
   * recreated empty and receives the chunks completed before the loop
   * stopped, then the remainder if it did not; the export runs only when
   * everything before it succeeded.
   */
  function UpdateVectors(docs: map<string, Document>, rows: seq<IssueRow>, svc: Services): (map<string, Document>, Option<Failure>)
  {
    if |rows| == 0 then (docs, Some(NoIssues))
    else
      var built := Documents(rows, svc.parse);
      var chunks := if built.1.Some? then FullChunks(built.0) else Chunks(built.0);
      var flushed := Flush(map[], chunks, svc.addDocuments);
      if !flushed.1 then (flushed.0, Some(AddFailed))
      else if built.1.Some? then (flushed.0, Some(BadLabels(built.1.value)))
      else if !svc.exportDb(flushed.0) then (flushed.0, Some(ExportFailed))
      else (flushed.0, None)
  }

  /** One more row of the loop. */
  lemma DocumentsNext(rows: seq<IssueRow>, parse: string -> Option<seq<Label>>, i: nat)
    requires i < |rows|
    ensures Documents(rows[..i + 1], parse) ==
      var prev := Documents(rows[..i], parse);
      if prev.1.Some? || rows[i].labels == "" then prev
      else match parse(rows[i].labels)
        case None => (prev.0, Some(rows[i].id))
        case Some(labels) => (prev.0 + [DocOf(rows[i], labels)], None)
  {
    assert rows[..i + 1][..i] == rows[..i];
  }

  /** After a label parse failure, further rows change nothing. */
  lemma {:induction false} DocumentsStuck(rows: seq<IssueRow>, parse: string -> Option<seq<Label>>, i: nat)
    requires i <= |rows| && Documents(rows[..i], parse).1.Some?
    ensures Documents(rows, parse) == Documents(rows[..i], parse)
    decreases |rows| - i
  {
    if i == |rows| {
      assert rows[..i] == rows;
    } else {
      assert rows[..|rows| - 1][..i] == rows[..i];
      DocumentsStuck(rows[..|rows| - 1], parse, i);
    }
  }

  /** The documents of a prefix of the rows begin the documents of all of them. */
  lemma {:induction false} DocumentsPrefix(rows: seq<IssueRow>, parse: string -> Option<seq<Label>>, i: nat)
    requires i <= |rows|
    ensures |Documents(rows[..i], parse).0| <= |Documents(rows, parse).0|
    ensures Documents(rows, parse).0[..|Documents(rows[..i], parse).0|] == Documents(rows[..i], parse).0
    decreases |rows| - i
  {
    if i == |rows| {
      assert rows[..i] == rows;
    } else {
      DocumentsPrefix(rows[..|rows| - 1], parse, i);
      assert rows[..|rows| - 1][..i] == rows[..i];
    }
  }

  /** The complete chunks of a prefix begin the chunks of the whole. */
  lemma FullChunksPrefix(ds: seq<Document>, n: nat)
    requires n <= |ds|
    ensures |FullChunks(ds[..n])| <= |FullChunks(ds)|
    ensures FullChunks(ds)[..|FullChunks(ds[..n])|] == FullChunks(ds[..n])
  {
    var p := ds[..n];
    var q := n / ChunkSize;
    forall k | 0 <= k < q ensures ds[k * ChunkSize .. k * ChunkSize + ChunkSize] == p[k * ChunkSize .. k * ChunkSize + ChunkSize] {
      assert k * ChunkSize + ChunkSize <= q * ChunkSize <= n;
    }
  }

  /**
   * With every label string parsed and every chunk accepted, the rebuilt
   * collection holds exactly the documents of the rows, added in order.
   */
  lemma RebuildInsertsAll(docs: map<string, Document>, rows: seq<IssueRow>, svc: Services)
    requires |rows| > 0 && Documents(rows, svc.parse).1 == None
    requires Flush(map[], Chunks(Documents(rows, svc.parse).0), svc.addDocuments).1
    ensures UpdateVectors(docs, rows, svc).0 == Insert(map[], Documents(rows, svc.parse).0)
  {
    var ds := Documents(rows, svc.parse).0;
    FlushInserts(map[], Chunks(ds), svc.addDocuments);
    ChunksConcat(ds);
  }

  /** The ids of the rows with labels, in decimal. */
  ghost predicate LabelledKey(rows: seq<IssueRow>, key: string) {
    exists k :: 0 <= k < |rows| && rows[k].labels != "" && key == Itoa(rows[k].id)
  }

  /** The last row's document is `doc`, appended to the documents of the rows before it. */
  lemma DocumentsLast(rows: seq<IssueRow>, parse: string -> Option<seq<Label>>)
    requires rows != [] && Documents(rows, parse).1 == None
    ensures var init := rows[..|rows| - 1]; var row := rows[|rows| - 1];
      && Documents(init, parse).1 == None
      && (row.labels == "" ==> Documents(rows, parse).0 == Documents(init, parse).0)
      && (row.labels != "" ==>
            && parse(row.labels).Some?
            && Documents(rows, parse).0 == Documents(init, parse).0 + [DocOf(row, parse(row.labels).value)])
  {
  }

  /** A key is in the rebuilt collection exactly when it is the decimal id of a row with labels. */
  lemma {:induction false} IndexedKeys(rows: seq<IssueRow>, parse: string -> Option<seq<Label>>, key: string)
    requires Documents(rows, parse).1 == None
    ensures key in Insert(map[], Documents(rows, parse).0) <==> LabelledKey(rows, key)
  {
    if rows != [] {
      var init := rows[..|rows| - 1];
      var row := rows[|rows| - 1];
      DocumentsLast(rows, parse);
      IndexedKeys(init, parse, key);
      LabelledKeyLast(rows, key);
      var ds := Documents(init, parse).0;
      if row.labels != "" {
        var doc := DocOf(row, parse(row.labels).value);
        assert (ds + [doc])[..|ds|] == ds;
        assert Insert(map[], ds + [doc]) == Insert(map[], ds)[doc.id := doc];
        assert doc.id == Itoa(row.id);
      }
    }
  }

  /** The labelled keys of `rows` are those of all rows but the last, and the last row's if it has labels. */
  lemma LabelledKeyLast(rows: seq<IssueRow>, key: string)
    requires rows != []
    ensures var init := rows[..|rows| - 1]; var row := rows[|rows| - 1];
      LabelledKey(rows, key) <==> LabelledKey(init, key) || (row.labels != "" && key == Itoa(row.id))
  {
    var init, last := rows[..|rows| - 1], |rows| - 1;
    if LabelledKey(init, key) {
      var k :| 0 <= k < |init| && init[k].labels != "" && key == Itoa(init[k].id);
      assert rows[k] == init[k];
      assert LabelledKey(rows, key);
    }
    if rows[last].labels != "" && key == Itoa(rows[last].id) {
      assert LabelledKey(rows, key);
    }
    if LabelledKey(rows, key) {
      var k :| 0 <= k < |rows| && rows[k].labels != "" && key == Itoa(rows[k].id);
      if k < |init| {
        assert init[k] == rows[k];
        assert LabelledKey(init, key);
      } else {
        assert k == last;
      }
    }
  }

  /** The document under a labelled row's id is the one built from that row. */
  lemma {:induction false} IndexedValue(rows: seq<IssueRow>, parse: string -> Option<seq<Label>>, k: nat)
    requires DistinctIds(rows) && Documents(rows, parse).1 == None
    requires k < |rows| && rows[k].labels != ""
    ensures parse(rows[k].labels).Some?
    ensures var m := Insert(map[], Documents(rows, parse).0);
      Itoa(rows[k].id) in m && m[Itoa(rows[k].id)] == DocOf(rows[k], parse(rows[k].labels).value)
  {
    var init := rows[..|rows| - 1];
    var row := rows[|rows| - 1];
    DocumentsLast(rows, parse);
    if k < |init| {
      assert init[k] == rows[k];
      assert DistinctIds(init);
      IndexedValue(init, parse, k);
      if row.labels != "" && Itoa(rows[k].id) == Itoa(row.id) {
        ItoaInjective(rows[k].id, row.id);
      }
    }
  }

  /**
   * The collection built from all rows holds one document per row with
   * labels, under the row's decimal id, with the row's content; and no other.
   */
  lemma DocumentsIndexed(rows: seq<IssueRow>, parse: string -> Option<seq<Label>>)
    requires DistinctIds(rows) && Documents(rows, parse).1 == None
    ensures var m := Insert(map[], Documents(rows, parse).0);
      && (forall key :: key in m <==> LabelledKey(rows, key))
      && (forall k :: 0 <= k < |rows| && rows[k].labels != "" ==>
            parse(rows[k].labels).Some? && m[Itoa(rows[k].id)] == DocOf(rows[k], parse(rows[k].labels).value))
  {
    forall key {
      IndexedKeys(rows, parse, key);
    }
    forall k | 0 <= k < |rows| && rows[k].labels != "" {
      IndexedValue(rows, parse, k);
    }
  }

  /** A label string that does not parse ends the rebuild with the chunks completed before it. */
  lemma ParseFailureIsFinal(docs: map<string, Document>, rows: seq<IssueRow>, svc: Services, i: nat)
    requires i < |rows| && Documents(rows[..i], svc.parse).1 == None
    requires rows[i].labels != "" && svc.parse(rows[i].labels).None?
    requires Flush(map[], FullChunks(Documents(rows[..i], svc.parse).0), svc.addDocuments).1
    ensures UpdateVectors(docs, rows, svc) ==
      (Flush(map[], FullChunks(Documents(rows[..i], svc.parse).0), svc.addDocuments).0, Some(BadLabels(rows[i].id)))
  {
    assert rows[..i + 1][..i] == rows[..i];
    DocumentsStuck(rows, svc.parse, i + 1);
  }

  /** A chunk that the collection refuses ends the rebuild, whatever the later rows hold. */
  lemma ChunkFailureIsFinal(docs: map<string, Document>, rows: seq<IssueRow>, svc: Services, i: nat)
    requires i < |rows| && Documents(rows[..i + 1], svc.parse).1 == None
    requires !Flush(map[], FullChunks(Documents(rows[..i + 1], svc.parse).0), svc.addDocuments).1
    ensures UpdateVectors(docs, rows, svc) ==
      (Flush(map[], FullChunks(Documents(rows[..i + 1], svc.parse).0), svc.addDocuments).0, Some(AddFailed))
  {
    var ds := Documents(rows[..i + 1], svc.parse).0;
    var all := Documents(rows, svc.parse).0;
    DocumentsPrefix(rows, svc.parse, i + 1);
    FullChunksPrefix(all, |ds|);
    assert all[..|ds|] == ds;
    var chunks := FullChunks(ds);
    var allChunks := if Documents(rows, svc.parse).1.Some? then FullChunks(all) else Chunks(all);
    assert allChunks[..|chunks|] == chunks;
    FlushFailed(map[], allChunks, |chunks|, svc.addDocuments);
  }

  /** Adding a completed chunk extends the flushed chunks by it. */
  lemma FlushNextChunk(ds: seq<Document>, d: Document, add: seq<Document> -> bool)
    requires (|ds| + 1) % ChunkSize == 0 && Flush(map[], FullChunks(ds), add).1
    ensures Flush(map[], FullChunks(ds + [d]), add) ==
      if add(Remainder(ds) + [d]) then (Insert(Flush(map[], FullChunks(ds), add).0, Remainder(ds) + [d]), true)
      else (Flush(map[], FullChunks(ds), add).0, false)
  {
    FullChunksAppend(ds, d);
    var chunks := FullChunks(ds + [d]);
    assert chunks[..|chunks| - 1] == FullChunks(ds);
  }

  /** At the end of the rows, the remainder is the last call, then the export. */
  lemma FinishRebuild(docs: map<string, Document>, rows: seq<IssueRow>, svc: Services)
    requires |rows| > 0 && Documents(rows, svc.parse).1 == None
    requires Flush(map[], FullChunks(Documents(rows, svc.parse).0), svc.addDocuments).1
    ensures var ds := Documents(rows, svc.parse).0;
      var m := Flush(map[], FullChunks(ds), svc.addDocuments).0;
      var flushed := if |ds| % ChunkSize == 0 then (m, true)
                     else if svc.addDocuments(Remainder(ds)) then (Insert(m, Remainder(ds)), true)
                     else (m, false);
      UpdateVectors(docs, rows, svc) ==
        if !flushed.1 then (flushed.0, Some(AddFailed))
        else if !svc.exportDb(flushed.0) then (flushed.0, Some(ExportFailed))
        else (flushed.0, None)
  {
    var ds := Documents(rows, svc.parse).0;
    if |ds| % ChunkSize != 0 {
      assert Chunks(ds)[..|Chunks(ds)| - 1] == FullChunks(ds);
    } else {
      assert Chunks(ds) == FullChunks(ds);
    }
  }

  /**
   * The state of the `for rows.Next()` loop after the first `i` rows: no
   * label string has failed, `documents` holds the `count` documents after
   * the last complete chunk, and the collection holds the complete chunks.
   */
  ghost predicate Pending(rows: seq<IssueRow>, i: nat, svc: Services, docs: map<string, Document>,
                          documents: seq<Document>, count: nat)
    requires i <= |rows|
  {
    var built := Documents(rows[..i], svc.parse);
    && built.1 == None
    && count == |built.0| % ChunkSize && documents == Remainder(built.0)
    && Flush(map[], FullChunks(built.0), svc.addDocuments) == (docs, true)
  }

  /**
   * One iteration of the `for rows.Next()` loop, on row `i`: skip a row
   * without labels, fail on labels that do not parse, else append the row's
   * document and hand a completed chunk to the collection. A failure ends the
   * rebuild as UpdateVectors says; otherwise the loop has taken one more row.
   */
  method AddRow(collection: Collection, rows: seq<IssueRow>, i: nat, svc: Services,
                documents: seq<Document>, count: nat)
    returns (documents': seq<Document>, count': nat, fail: Option<Failure>)
    requires i < |rows| && Pending(rows, i, svc, collection.docs, documents, count)
    modifies collection
    ensures fail.Some? ==> (collection.docs, fail) == UpdateVectors(map[], rows, svc)
    ensures fail.None? ==> Pending(rows, i + 1, svc, collection.docs, documents', count')
  {
    ghost var ds := Documents(rows[..i], svc.parse).0;
    DocumentsNext(rows, svc.parse, i);
    var row := rows[i];
    documents', count', fail := documents, count, None;
    if |row.labels| == 0 {
      return;
    }
    var parsed := svc.parse(row.labels);
    if parsed.None? {
      ParseFailureIsFinal(map[], rows, svc, i);
      return documents, count, Some(BadLabels(row.id));
    }
    var labelsString := JoinLabelNames(parsed.value);
    var doc := Document(Itoa(row.id), Content(row.title, labelsString, row.description), None, map[]);
    assert Documents(rows[..i + 1], svc.parse).0 == ds + [doc];
    FullChunksAppend(ds, doc);
    documents' := documents + [doc];
    count' := count + 1;
    ChunkFull(count');
    if count' % ChunkSize == 0 {
      FlushNextChunk(ds, doc, svc.addDocuments);
      if !svc.addDocuments(documents') {
        ChunkFailureIsFinal(map[], rows, svc, i);
        return documents', count', Some(AddFailed);
      }
      collection.docs := Insert(collection.docs, documents');
      count' := 0;
      documents' := [];
    }
  }

  /**
   * The `for rows.Next()` loop of updateVectorsDb over a freshly emptied
   * collection: it either ends the rebuild with the failure UpdateVectors
   * reports, or takes every row and holds the remainder still to be added.
   */
  method AddRows(collection: Collection, rows: seq<IssueRow>, svc: Services)
    returns (documents: seq<Document>, count: nat, fail: Option<Failure>)
    requires |rows| > 0 && collection.docs == map[]
    modifies collection
    ensures fail.Some? ==> (collection.docs, fail) == UpdateVectors(map[], rows, svc)
    ensures fail.None? ==> Pending(rows, |rows|, svc, collection.docs, documents, count)
  {
    documents, count, fail := [], 0, None;
    var i := 0;
    assert rows[..0] == [];
    while i < |rows|
      invariant 0 <= i <= |rows| && fail == None
      invariant Pending(rows, i, svc, collection.docs, documents, count)
    {
      documents, count, fail := AddRow(collection, rows, i, svc, documents, count);
      if fail.Some? {
        return;
      }
      i := i + 1;
    }
  }

  /**
   * updateVectorsDb. The collection is the chromem collection "issues", which
   * DeleteCollection and CreateCollection replace by an empty one.
   */
  method UpdateVectorsDb(collection: Collection, rows: seq<IssueRow>, svc: Services) returns (fail: Option<Failure>)
    modifies collection
    ensures (collection.docs, fail) == UpdateVectors(old(collection.docs), rows, svc)
  {
    if |rows| == 0 {
      return Some(NoIssues);
    }
    collection.docs := map[];
    var documents, count;
    documents, count, fail := AddRows(collection, rows, svc);
    if fail.Some? {
      return;
    }
    assert rows[..|rows|] == rows;
    FinishRebuild(old(collection.docs), rows, svc);
    if count > 0 {
      if !svc.addDocuments(documents) {
        return Some(AddFailed);
      }
      collection.docs := Insert(collection.docs, documents);
    }
    if !svc.exportDb(collection.docs) {
      return Some(ExportFailed);
    }
    return None;
  }

  // ---------------------------------------------------------------- restore

  /** What the vector database file holds: an export under some key, or anything else. */
  datatype VectorFile = Exported(docs: map<string, Document>, key: string) | Unreadable

  /** db.Export writes the collection under the fixed key. */
  function Export(files: map<string, VectorFile>, path: string, docs: map<string, Document>): map<string, VectorFile>
  {
    files[path := Exported(docs, ExportKey)]
  }

  /**
   * restoreVecots: a missing file leaves the collection as it is; a file is
   * imported, and an unreadable one or one exported under another key is an
   * error.
   */
  function Restore(files: map<string, VectorFile>, path: string, docs: map<string, Document>): (r: Result<map<string, Document>, string>)
    ensures path !in files ==> r == Ok(docs)
    ensures path in files && files[path].Unreadable? ==> r.Err?
  {
    if path !in files then Ok(docs)
    else match files[path]
      case Unreadable => Err("import failed")
      case Exported(saved, key) => if key == ExportKey then Ok(saved) else Err("import failed")
  }

  /** Restoring what an export wrote gives back the exported collection, whatever was in memory. */
  lemma RestoreExport(files: map<string, VectorFile>, path: string, exported: map<string, Document>, current: map<string, Document>)
    ensures Restore(Export(files, path, exported), path, current) == Ok(exported)
  {
  }

  // ---------------------------------------------------------------- flags

  datatype Flags = Flags(updateVectors: bool, issuesDb: string, vectorDb: string, issueTitle: string, issueDescription: string)

  /**
   * validateFlags as written: the existence check runs only when the
   * database path is empty, where os.Stat("") always reports a missing file.
   */
  function ValidateFlagsAsWritten(f: Flags, stat: string -> Stat): (r: Option<string>)
  {
    if f.updateVectors && f.issuesDb == "" then Some("issueDbFile is required when updateVectors is true")
    else if f.issuesDb == "" && stat(f.issuesDb) == NotExist then Some("issueDbFile " + f.issuesDb + " does not exist")
    else if f.issuesDb == "" && stat(f.issuesDb) == StatError then Some("stat failed")
    else if f.issueTitle == "" then Some("issueTitle is required")
    else if f.issueDescription == "" then Some("issueDescription is required")
    else None
  }

  /** As written, a database path naming a missing file passes validation. */
  lemma MissingDatabaseAccepted()
    ensures var f := Flags(true, "missing.sqlite", "vector.db", "title", "description");
      ValidateFlagsAsWritten(f, (p: string) => NotExist) == None
  {
  }

  /** validateFlags with the existence check applied to a given path, as its comment says. */
  function ValidateFlags(f: Flags, stat: string -> Stat): (r: Option<string>)
  {
    if f.updateVectors && f.issuesDb == "" then Some("issueDbFile is required when updateVectors is true")
    else if f.issuesDb != "" && stat(f.issuesDb) == NotExist then Some("issueDbFile " + f.issuesDb + " does not exist")
    else if f.issuesDb != "" && stat(f.issuesDb) == StatError then Some("stat failed")
    else if f.issueTitle == "" then Some("issueTitle is required")
    else if f.issueDescription == "" then Some("issueDescription is required")
    else None
  }

  /**
   * The corrected validation accepts exactly the flags with a title and a
   * description whose database path, when given, exists, and which give a
   * path whenever vectors are to be updated.
   */
  lemma ValidateFlagsAccepts(f: Flags, stat: string -> Stat)
    ensures ValidateFlags(f, stat) == None <==>
      && (f.updateVectors ==> f.issuesDb != "")
      && (f.issuesDb != "" ==> stat(f.issuesDb) == Exists)
      && f.issueTitle != "" && f.issueDescription != ""
  {
  }
}
