/**
 * The historian (pkg/historian/historian.go): it embeds an issue, asks the
 * vector collection for the 1000 most similar documents, and returns the
 * longest prefix of their contents, grown 150 documents at a time, whose
 * text joined with a fixed separator is still counted below 900000 tokens.
 */
module Historian {
  import opened Common
  import opened Strings

  const BatchingSize: nat := 150
  const MaxTokens: int := 900000
  const QueryLimit: nat := 1000
  const Separator := "---##$$##---"

  /** The embedding model, the collection query and the token counter. */
  datatype Services = Services(
    embed: (string, string) -> Option<Embedding>,       // EmbedContentWithTitle(title, body)
    query: (Embedding, nat) -> Option<seq<Document>>,  // QueryEmbedding(vector, nResults)
    countTokens: string -> Option<int>)                  // CountTokens(text).TotalTokens

  /** Where the next candidate prefix ends: 150 documents further on, or the end. */
  function NextSize(current: nat, total: nat): nat
  {
    if current + BatchingSize >= total then total else current + BatchingSize
  }

  /** A candidate is kept when it is counted and its count is below the limit. */
  predicate Fits(count: string -> Option<int>, candidate: seq<string>) {
    var c := count(Join(candidate, Separator));
    c.Some? && c.value < MaxTokens
  }

  /**
   * The growth loop from `current` (with the first `current` contents
   * already accepted): try the next candidate prefix; stop with what was
   * accepted when it does not fit, or with the candidate once it is the whole
   * list.
   */
  function Grow(content: seq<string>, current: nat, count: string -> Option<int>): seq<string>
    requires current <= |content|
    decreases |content| - current
  {
    var next := NextSize(current, |content|);
    if !Fits(count, content[..next]) then content[..current]
    else if next == |content| then content
    else Grow(content, next, count)
  }

  /** The documents' texts the historian returns for a list of query results. */
  function RelevantPrefix(content: seq<string>, count: string -> Option<int>): seq<string>
  {
    Grow(content, 0, count)
  }

  /**
   * The result of the growth loop is a prefix of the contents, at least
   * `current` long, whose length is a multiple of 150 unless it is the whole
   * list; every batch-aligned prefix from `current` up to it fits; and when
   * it is not the whole list, the next candidate did not fit.
   */
  lemma {:induction false} GrowShape(content: seq<string>, current: nat, count: string -> Option<int>)
    requires current <= |content| && current % BatchingSize == 0
    ensures var r := Grow(content, current, count);
      && current <= |r| <= |content|
      && r == content[..|r|]
      && (|r| % BatchingSize == 0 || |r| == |content|)
      && (|r| > current ==> Fits(count, r))
      && (forall m :: current < m <= |r| && m % BatchingSize == 0 ==> Fits(count, content[..m]))
      && (|r| < |content| ==> !Fits(count, content[..NextSize(|r|, |content|)]))
    decreases |content| - current
  {
    var next := NextSize(current, |content|);
    if Fits(count, content[..next]) && next < |content| {
      GrowShape(content, next, count);
      var r := Grow(content, next, count);
      forall m | current < m <= |r| && m % BatchingSize == 0 ensures Fits(count, content[..m]) {
        if m <= next {
          assert m == next;
        }
      }
    } else if Fits(count, content[..next]) {
      assert content[..|content|] == content;
    }
  }

  /**
   * The historian's result: a prefix of the query results' texts, aligned to
   * 150 unless it is all of them, counted below the limit when non-empty, that
   * stops growing at the first candidate that is over the limit or cannot be
   * counted.
   */
  lemma RelevantPrefixShape(content: seq<string>, count: string -> Option<int>)
    ensures var r := RelevantPrefix(content, count);
      && |r| <= |content|
      && r == content[..|r|]
      && (|r| % BatchingSize == 0 || |r| == |content|)
      && (r != [] ==> Fits(count, r))
      && (forall m :: 0 < m <= |r| && m % BatchingSize == 0 ==> Fits(count, content[..m]))
      && (|r| < |content| ==> !Fits(count, content[..NextSize(|r|, |content|)]))
  {
    GrowShape(content, 0, count);
  }

  /** A counter that accepts everything keeps every result; one that accepts nothing keeps none. */
  lemma {:induction false} GrowExtremes(content: seq<string>, current: nat, count: string -> Option<int>)
    requires current <= |content|
    ensures (forall t :: Fits(count, t)) ==> Grow(content, current, count) == content
    ensures (forall t :: !Fits(count, t)) ==> Grow(content, current, count) == content[..current]
    decreases |content| - current
  {
    var next := NextSize(current, |content|);
    if next < |content| {
      GrowExtremes(content, next, count);
    }
  }

  /** A counter that accepts every text the other accepts never yields a shorter result. */
  lemma {:induction false} GrowMonotone(content: seq<string>, current: nat, count: string -> Option<int>, more: string -> Option<int>)
    requires current <= |content| && current % BatchingSize == 0
    requires forall t :: Fits(count, t) ==> Fits(more, t)
    ensures |Grow(content, current, count)| <= |Grow(content, current, more)|
    decreases |content| - current
  {
    var next := NextSize(current, |content|);
    GrowShape(content, current, more);
    if Fits(count, content[..next]) && next < |content| {
      GrowMonotone(content, next, count, more);
    }
  }

  /** The counts of `count` lowered by `extra`: fitting under it is fitting under a limit `extra` higher. */
  function Lowered(count: string -> Option<int>, extra: nat): (lowered: string -> Option<int>)
    ensures forall t :: Fits(lowered, t) <==> count(Join(t, Separator)).Some? && count(Join(t, Separator)).value < MaxTokens + extra
  {
    t => if count(t).Some? then Some(count(t).value - extra) else None
  }

  /** Raising the token limit by `extra` never shortens the historian's result. */
  lemma LargerBudgetNotShorter(content: seq<string>, count: string -> Option<int>, extra: nat)
    ensures |RelevantPrefix(content, count)| <= |RelevantPrefix(content, Lowered(count, extra))|
  {
    GrowMonotone(content, 0, count, Lowered(count, extra));
  }

  /** The texts of the query results, in the order the collection returned them. */
  method Contents(documents: seq<Document>) returns (content: seq<string>)
    ensures |content| == |documents|
    ensures forall i :: 0 <= i < |documents| ==> content[i] == documents[i].content
  {
    content := [];
    var i := 0;
    while i < |documents|
      invariant 0 <= i <= |documents| && |content| == i
      invariant forall j :: 0 <= j < i ==> content[j] == documents[j].content
    {
      content := content + [documents[i].content];
      i := i + 1;
    }
  }

  /**
   * FindRelevantDocuments: an embedding or query failure is returned as an
   * error; otherwise the growth loop runs over the query results' texts.
   */
  method FindRelevantDocuments(issue: Issue, svc: Services) returns (r: Result<seq<string>, string>)
    ensures svc.embed(issue.title, issue.body).None? ==> r.Err?
    ensures svc.embed(issue.title, issue.body).Some? ==>
      var docs := svc.query(svc.embed(issue.title, issue.body).value, QueryLimit);
      && (docs.None? ==> r.Err?)
      && (docs.Some? ==> r.Ok? && r.value == RelevantPrefix(seq(|docs.value|, i requires 0 <= i < |docs.value| => docs.value[i].content), svc.countTokens))
  {
    var embedding := svc.embed(issue.title, issue.body);
    if embedding.None? {
      return Err("embedding failed");
    }
    var documents := svc.query(embedding.value, QueryLimit);
    if documents.None? {
      return Err("query failed");
    }
    var content := Contents(documents.value);
    assert content == seq(|documents.value|, i requires 0 <= i < |documents.value| => documents.value[i].content);
    ghost var target := RelevantPrefix(content, svc.countTokens);

    var isValid := true;
    var current := 0;
    var currentResults: seq<string> := [];
    var results: seq<string> := [];
    while isValid
      invariant isValid ==> current <= |content| && currentResults == content[..current] && results == currentResults
      invariant isValid ==> Grow(content, current, svc.countTokens) == target
      invariant !isValid ==> results == target
      decreases if isValid then |content| - current + 1 else 0
    {
      var nextSize := current + BatchingSize;
      if nextSize >= |content| {
        nextSize := |content|;
        isValid := false;
      }
      assert content[..current] + content[current..nextSize] == content[..nextSize];
      currentResults := currentResults + content[current..nextSize];
      var textContent := Join(currentResults, Separator);
      var tokensCount := svc.countTokens(textContent);
      if tokensCount.None? {
        break;
      }
      if tokensCount.value >= MaxTokens {
        break;
      }
      results := currentResults;
      current := current + BatchingSize;
      if !isValid {
        assert content[..nextSize] == content;
      }
    }
    return Ok(results);
  }
}
