/**
 * Types shared by the auto-triager commands: the failure-carrying wrappers,
 * the GitHub label shape (pkg/commontypes/commontypes.go) and the documents
 * of the chromem vector collection named "issues".
 */
module Common {

  datatype Option<+T> = None | Some(value: T)

  /** An error return as a value: `Ok(v)` is Go's `(v, nil)`, `Err(e)` is `(_, e)`. */
  datatype Result<+T, +E> = Ok(value: T) | Err(error: E)

  /** What os.Stat reports for a path: a file, os.IsNotExist, or another error. */
  datatype Stat = Exists | NotExist | StatError

  /** A GitHub label; the commands only ever read its name. */
  datatype Label = Label(name: string)

  /**
   * The fields of a GitHub issue the commands read. `pullRequestUrl` is
   * non-empty when the "issue" is a pull request; `createdAt` is in Unix
   * seconds.
   */
  datatype Issue = Issue(
    number: int,
    title: string,
    body: string,
    labels: seq<Label>,
    pullRequestUrl: string,
    createdAt: int)

  /** Each label's name followed by ", ", in order. */
  function LabelNames(labels: seq<Label>): string
  {
    if labels == [] then "" else LabelNames(labels[..|labels| - 1]) + labels[|labels| - 1].name + ", "
  }

  /** The `labelsString += label.Name + ", "` loop over parsed labels. */
  method JoinLabelNames(labels: seq<Label>) returns (s: string)
    ensures s == LabelNames(labels)
  {
    s := "";
    var i := 0;
    while i < |labels|
      invariant 0 <= i <= |labels|
      invariant s == LabelNames(labels[..i])
    {
      assert labels[..i + 1][..i] == labels[..i];
      s := s + labels[i].name + ", ";
      i := i + 1;
    }
    assert labels[..i] == labels;
  }

  /** The label text of two label lists one after the other is the two texts one after the other. */
  lemma {:induction false} LabelNamesAppend(a: seq<Label>, b: seq<Label>)
    ensures LabelNames(a + b) == LabelNames(a) + LabelNames(b)
    decreases |b|
  {
    if b == [] {
      assert a + b == a;
    } else {
      assert (a + b)[..|a + b| - 1] == a + b[..|b| - 1];
      LabelNamesAppend(a, b[..|b| - 1]);
    }
  }

  /** An embedding vector; its float32 values are opaque to the model. */
  type Embedding = seq<real>

  /**
   * A document of the vector collection. `embedding` is `None` when the
   * document is handed to the collection without a vector (the collection's
   * own embedding function, outside this model, then computes one).
   */
  datatype Document = Document(
    id: string,
    content: string,
    embedding: Option<Embedding>,
    metadata: map<string, string>)

  /** The in-memory vector collection "issues": documents keyed by id, last write wins. */
  class Collection {
    var docs: map<string, Document>

    constructor (initial: map<string, Document>)
      ensures docs == initial
    {
      docs := initial;
    }
  }
}
