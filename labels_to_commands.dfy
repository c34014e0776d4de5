/**
 * scripts/labels-to-commands.js: every `{label, projects}` entry of
 * labels.json becomes one "add to project" command per project, entries in
 * order and each entry's projects in order. Reading labels.json and writing
 * out/commands.json are outside the model.
 */
module LabelsToCommands {
  import opened Common
  import opened Seqs

  /** An element of labels.json. */
  datatype LabelProjects = LabelProjects(labelName: string, projects: seq<string>)

  /**
   * A command object of commands.json. `addToProject` is the project URL, or
   * None when the object has no `addToProject` member.
   */
  datatype Command = Command(kind: string, name: string, action: string, addToProject: Option<string>)

  /** The object pushed for one project of a label. */
  function CommandFor(labelName: string, project: string): Command {
    Command("label", labelName, "addToProject", Some(project))
  }

  /** The commands of one entry. */
  function EntryCommands(labelName: string, projects: seq<string>): (r: seq<Command>)
    ensures |r| == |projects| && forall j :: 0 <= j < |projects| ==> r[j] == CommandFor(labelName, projects[j])
  {
    if projects == [] then []
    else EntryCommands(labelName, projects[..|projects| - 1]) + [CommandFor(labelName, projects[|projects| - 1])]
  }

  /** The commands of all entries, entry by entry. */
  function Transform(entries: seq<LabelProjects>): seq<Command>
  {
    if entries == [] then []
    else
      var last := entries[|entries| - 1];
      Transform(entries[..|entries| - 1]) + EntryCommands(last.labelName, last.projects)
  }

  /** The nested forEach of lines 15-26. */
  method TransformLabels(entries: seq<LabelProjects>) returns (transformed: seq<Command>)
    ensures transformed == Transform(entries)
  {
    transformed := [];
    var i := 0;
    while i < |entries|
      invariant 0 <= i <= |entries| && transformed == Transform(entries[..i])
    {
      var labelName, projects := entries[i].labelName, entries[i].projects;
      ghost var before := transformed;
      var j := 0;
      while j < |projects|
        invariant 0 <= j <= |projects| && transformed == before + EntryCommands(labelName, projects[..j])
      {
        assert projects[..j + 1][..j] == projects[..j];
        transformed := transformed + [CommandFor(labelName, projects[j])];
        j := j + 1;
      }
      assert projects[..j] == projects;
      assert entries[..i + 1][..i] == entries[..i];
      i := i + 1;
    }
    assert entries[..i] == entries;
  }

  /** The project counts of `entries`. */
  function Sizes(entries: seq<LabelProjects>): seq<nat>
  {
    if entries == [] then [] else [|entries[0].projects|] + Sizes(entries[1..])
  }

  lemma {:induction false} TransformAppend(a: seq<LabelProjects>, b: seq<LabelProjects>)
    ensures Transform(a + b) == Transform(a) + Transform(b)
    decreases |b|
  {
    if b == [] {
      assert a + b == a;
    } else {
      var ab, init, last := a + b, b[..|b| - 1], b[|b| - 1];
      assert ab[..|ab| - 1] == a + init;
      assert ab[|ab| - 1] == last;
      TransformAppend(a, init);
      assert Transform(ab) == Transform(a + init) + EntryCommands(last.labelName, last.projects);
      assert Transform(b) == Transform(init) + EntryCommands(last.labelName, last.projects);
      Assoc(Transform(a), Transform(init), EntryCommands(last.labelName, last.projects));
    }
  }

  lemma TransformOne(e: LabelProjects)
    ensures Transform([e]) == EntryCommands(e.labelName, e.projects)
  {
    assert [e][..0] == [];
  }

  /** The first entry's commands come first, then the rest's. */
  lemma TransformCons(entries: seq<LabelProjects>)
    requires entries != []
    ensures Transform(entries) == EntryCommands(entries[0].labelName, entries[0].projects) + Transform(entries[1..])
  {
    assert entries == [entries[0]] + entries[1..];
    TransformAppend([entries[0]], entries[1..]);
    TransformOne(entries[0]);
  }

  /** There are as many commands as projects over all entries. */
  lemma {:induction false} TransformLength(entries: seq<LabelProjects>)
    ensures |Transform(entries)| == Sum(Sizes(entries))
    decreases |entries|
  {
    if entries != [] {
      TransformCons(entries);
      TransformLength(entries[1..]);
    }
  }

  /**
   * Label-major order: the commands of entry `i` start after the projects of
   * the entries before it, and its `j`-th one is for its `j`-th project.
   */
  lemma {:induction false} TransformAt(entries: seq<LabelProjects>, i: nat, j: nat)
    requires i < |entries| && j < |entries[i].projects|
    ensures Sum(Sizes(entries[..i])) + j < |Transform(entries)|
    ensures Transform(entries)[Sum(Sizes(entries[..i])) + j] == CommandFor(entries[i].labelName, entries[i].projects[j])
    decreases i
  {
    if i == 0 {
      TransformAtFirst(entries, j);
    } else {
      TransformCons(entries);
      var first := EntryCommands(entries[0].labelName, entries[0].projects);
      var rest := Transform(entries[1..]);
      TransformAt(entries[1..], i - 1, j);
      SizesPrefix(entries, i);
      var n := Sum(Sizes(entries[1..][..i - 1])) + j;
      assert Sum(Sizes(entries[..i])) + j == |first| + n;
      assert Transform(entries) == first + rest;
      assert (first + rest)[|first| + n] == rest[n];
    }
  }

  lemma TransformAtFirst(entries: seq<LabelProjects>, j: nat)
    requires entries != [] && j < |entries[0].projects|
    ensures Sum(Sizes(entries[..0])) + j < |Transform(entries)|
    ensures Transform(entries)[Sum(Sizes(entries[..0])) + j] == CommandFor(entries[0].labelName, entries[0].projects[j])
  {
    TransformCons(entries);
    assert entries[..0] == [];
  }

  /** The projects before entry `i` are the first entry's and those before entry `i - 1` of the rest. */
  lemma SizesPrefix(entries: seq<LabelProjects>, i: nat)
    requires 0 < i <= |entries|
    ensures Sum(Sizes(entries[..i])) == |entries[0].projects| + Sum(Sizes(entries[1..][..i - 1]))
  {
    assert entries[1..][..i - 1] == entries[..i][1..];
  }

  /** An entry without projects contributes no command. */
  lemma EmptyEntry(a: seq<LabelProjects>, labelName: string, b: seq<LabelProjects>)
    ensures Transform(a + [LabelProjects(labelName, [])] + b) == Transform(a + b)
  {
    TransformAppend(a + [LabelProjects(labelName, [])], b);
    TransformAppend(a, [LabelProjects(labelName, [])]);
    TransformOne(LabelProjects(labelName, []));
    TransformAppend(a, b);
  }

  /** Every command made carries a project URL. */
  lemma {:induction false} TransformAddsToProject(entries: seq<LabelProjects>)
    ensures forall c :: c in Transform(entries) ==> c.addToProject.Some? && c.kind == "label" && c.action == "addToProject"
    decreases |entries|
  {
    if entries != [] {
      TransformAddsToProject(entries[..|entries| - 1]);
    }
  }
}
