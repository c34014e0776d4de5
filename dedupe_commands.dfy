/**
 * scripts/dedupe-commands-json.js: commands.json with repeated "add to
 * project" commands removed. A command with `addToProject` is dropped when a
 * command already kept has the same name and project URL; any other command
 * is kept. The check reads `item.addToProject.url` of every kept command of
 * the same name that it reaches, which throws a TypeError when that command
 * has no `addToProject`. File reading and writing are outside the model.
 */
module DedupeCommands {
  import opened Common
  import opened Seqs
  import opened LabelsToCommands

  /** The TypeError `item.addToProject.url` throws when `item.addToProject` is undefined. */
  datatype TypeError = UndefinedAddToProject(name: string)

  /**
   * `uniqueCommands.some(item => item.name === command.name &&
   * item.addToProject.url === command.addToProject.url)`, with the scan in
   * order and stopping at the first true.
   */
  function IsDuplicate(kept: seq<Command>, c: Command): Result<bool, TypeError>
    requires c.addToProject.Some?
  {
    if kept == [] then Ok(false)
    else if kept[0].name != c.name then IsDuplicate(kept[1..], c)
    else if kept[0].addToProject.None? then Err(UndefinedAddToProject(kept[0].name))
    else if kept[0].addToProject == c.addToProject then Ok(true)
    else IsDuplicate(kept[1..], c)
  }

  /** The `commands.forEach` of lines 11-25. */
  function Dedupe(commands: seq<Command>): Result<seq<Command>, TypeError>
  {
    if commands == [] then Ok([])
    else
      var c := commands[|commands| - 1];
      match Dedupe(commands[..|commands| - 1])
      case Err(e) => Err(e)
      case Ok(kept) =>
        if c.addToProject.None? then Ok(kept + [c])
        else
          match IsDuplicate(kept, c)
          case Err(e) => Err(e)
          case Ok(dup) => if dup then Ok(kept) else Ok(kept + [c])
  }

  /** The `some` scan as a loop. */
  method FindDuplicate(kept: seq<Command>, c: Command) returns (r: Result<bool, TypeError>)
    requires c.addToProject.Some?
    ensures r == IsDuplicate(kept, c)
  {
    var k := 0;
    while k < |kept|
      invariant 0 <= k <= |kept| && IsDuplicate(kept, c) == IsDuplicate(kept[k..], c)
    {
      assert kept[k..][1..] == kept[k + 1..];
      var item := kept[k];
      if item.name == c.name {
        if item.addToProject.None? {
          return Err(UndefinedAddToProject(item.name));
        }
        if item.addToProject == c.addToProject {
          return Ok(true);
        }
      }
      k := k + 1;
    }
    return Ok(false);
  }

  /** The script: the commands, with every repeated (name, url) command left out. */
  method DedupeAll(commands: seq<Command>) returns (r: Result<seq<Command>, TypeError>)
    ensures r == Dedupe(commands)
  {
    var uniqueCommands: seq<Command> := [];
    var i := 0;
    while i < |commands|
      invariant 0 <= i <= |commands| && Dedupe(commands[..i]) == Ok(uniqueCommands)
    {
      var command := commands[i];
      assert commands[..i + 1][..i] == commands[..i];
      if command.addToProject.Some? {
        var isDuplicate := FindDuplicate(uniqueCommands, command);
        if isDuplicate.Err? {
          DedupeErrorStays(commands, i + 1);
          return Err(isDuplicate.error);
        }
        if !isDuplicate.value {
          uniqueCommands := uniqueCommands + [command];
        }
      } else {
        uniqueCommands := uniqueCommands + [command];
      }
      i := i + 1;
    }
    assert commands[..i] == commands;
    return Ok(uniqueCommands);
  }

  /** Once the scan has thrown, the script has thrown. */
  lemma {:induction false} DedupeErrorStays(commands: seq<Command>, i: nat)
    requires i <= |commands| && Dedupe(commands[..i]).Err?
    ensures Dedupe(commands) == Dedupe(commands[..i])
    decreases |commands| - i
  {
    if i < |commands| {
      assert commands[..i + 1][..i] == commands[..i];
      DedupeErrorStays(commands, i + 1);
    } else {
      assert commands[..i] == commands;
    }
  }

  // ---------------------------------------------------------------- first occurrences

  /** Some command of `cs` adds to a project and has the name and URL of `c`. */
  predicate Seen(cs: seq<Command>, c: Command) {
    exists x :: x in cs && x.addToProject.Some? && x.name == c.name && x.addToProject == c.addToProject
  }

  /**
   * The reference definition: every command without `addToProject`, and the
   * first command of each (name, url) pair.
   */
  function FirstOccurrences(cs: seq<Command>): seq<Command>
  {
    if cs == [] then []
    else
      var init, c := cs[..|cs| - 1], cs[|cs| - 1];
      FirstOccurrences(init) + (if c.addToProject.Some? && Seen(init, c) then [] else [c])
  }

  /** The scan finds a duplicate only where the pair was seen; it answers false only where it was not. */
  lemma {:induction false} IsDuplicateSeen(kept: seq<Command>, c: Command)
    requires c.addToProject.Some?
    ensures IsDuplicate(kept, c) == Ok(true) ==> Seen(kept, c)
    ensures IsDuplicate(kept, c) == Ok(false) ==> !Seen(kept, c)
    decreases |kept|
  {
    if kept != [] {
      IsDuplicateSeen(kept[1..], c);
      assert kept == [kept[0]] + kept[1..];
    }
  }

  lemma SeenAppend(a: seq<Command>, b: seq<Command>, c: Command)
    ensures Seen(a + b, c) <==> Seen(a, c) || Seen(b, c)
  {
    if Seen(a + b, c) {
      var x :| x in a + b && x.addToProject.Some? && x.name == c.name && x.addToProject == c.addToProject;
      assert x in a || x in b;
    }
  }

  /** A pair is seen among the first occurrences exactly when it is seen at all. */
  lemma {:induction false} FirstOccurrencesSeen(cs: seq<Command>)
    ensures forall c :: Seen(FirstOccurrences(cs), c) <==> Seen(cs, c)
    ensures forall x :: x in FirstOccurrences(cs) ==> x in cs
    decreases |cs|
  {
    if cs != [] {
      var init, last := cs[..|cs| - 1], cs[|cs| - 1];
      FirstOccurrencesSeen(init);
      assert cs == init + [last];
      var d := if last.addToProject.Some? && Seen(init, last) then [] else [last];
      assert FirstOccurrences(cs) == FirstOccurrences(init) + d;
      forall c ensures Seen(FirstOccurrences(cs), c) <==> Seen(cs, c) {
        SeenAppend(FirstOccurrences(init), d, c);
        SeenAppend(init, [last], c);
        if d == [] && Seen([last], c) {
          var x :| x in init && x.addToProject.Some? && x.name == last.name && x.addToProject == last.addToProject;
          assert x.name == c.name && x.addToProject == c.addToProject;
        }
      }
    }
  }

  /** When the script does not throw, it keeps exactly the first occurrences. */
  lemma {:induction false} DedupeKeepsFirst(cs: seq<Command>)
    requires Dedupe(cs).Ok?
    ensures Dedupe(cs).value == FirstOccurrences(cs)
    decreases |cs|
  {
    if cs != [] {
      var init, c := cs[..|cs| - 1], cs[|cs| - 1];
      DedupeKeepsFirst(init);
      FirstOccurrencesSeen(init);
      if c.addToProject.Some? {
        IsDuplicateSeen(FirstOccurrences(init), c);
      }
    }
  }

  /** Commands without `addToProject` are all kept. */
  lemma {:induction false} PlainCommandsKept(cs: seq<Command>)
    ensures forall c :: c in cs && c.addToProject.None? ==> c in FirstOccurrences(cs)
    decreases |cs|
  {
    if cs != [] {
      PlainCommandsKept(cs[..|cs| - 1]);
      assert cs == cs[..|cs| - 1] + [cs[|cs| - 1]];
    }
  }

  /** No two "add to project" commands of `r` share their name and URL. */
  predicate UniquePairs(r: seq<Command>) {
    forall a, b :: 0 <= a < b < |r| && r[a].addToProject.Some? && r[b].addToProject.Some? ==>
      r[a].name != r[b].name || r[a].addToProject != r[b].addToProject
  }

  /** No two kept "add to project" commands share their name and URL. */
  lemma {:induction false} FirstOccurrencesUnique(cs: seq<Command>)
    ensures UniquePairs(FirstOccurrences(cs))
    decreases |cs|
  {
    if cs != [] {
      var init, c := cs[..|cs| - 1], cs[|cs| - 1];
      FirstOccurrencesUnique(init);
      FirstOccurrencesSeen(init);
      var p := FirstOccurrences(init);
      forall a | 0 <= a < |p| && p[a].addToProject.Some? && c.addToProject.Some? && !Seen(init, c)
        ensures p[a].name != c.name || p[a].addToProject != c.addToProject
      {
        assert p[a] in p;
        assert p[a] in init;
      }
      if !(c.addToProject.Some? && Seen(init, c)) {
        var r := p + [c];
        assert FirstOccurrences(cs) == r;
        forall a, b | 0 <= a < b < |r| && r[a].addToProject.Some? && r[b].addToProject.Some?
          ensures r[a].name != r[b].name || r[a].addToProject != r[b].addToProject
        {
          if b < |p| {
            assert r[a] == p[a] && r[b] == p[b];
          }
        }
      }
    }
  }

  /** The kept commands are the input with some commands left out, the rest in order. */
  lemma {:induction false} FirstOccurrencesSubsequence(cs: seq<Command>)
    ensures IsSubsequence(FirstOccurrences(cs), cs)
    decreases |cs|
  {
    if cs != [] {
      var init, c := cs[..|cs| - 1], cs[|cs| - 1];
      FirstOccurrencesSubsequence(init);
      assert cs == init + [c];
      if c.addToProject.Some? && Seen(init, c) {
        assert FirstOccurrences(cs) == FirstOccurrences(init);
        SubsequenceExtend(FirstOccurrences(init), init, c);
      } else {
        assert FirstOccurrences(cs) == FirstOccurrences(init) + [c];
        SubsequenceSnoc(FirstOccurrences(init), init, c);
      }
    }
  }

  /** Running the script on its own output changes nothing. */
  lemma {:induction false} DedupeIdempotent(cs: seq<Command>)
    requires Dedupe(cs).Ok?
    ensures Dedupe(Dedupe(cs).value) == Dedupe(cs)
    decreases |cs|
  {
    if cs != [] {
      var init, c := cs[..|cs| - 1], cs[|cs| - 1];
      var kept := Dedupe(init).value;
      DedupeIdempotent(init);
      if Dedupe(cs).value != kept {
        assert Dedupe(cs).value == kept + [c];
        assert (kept + [c])[..|kept|] == kept;
      }
    }
  }

  /**
   * The script cannot throw when no command without `addToProject` has the
   * name of a later "add to project" command.
   */
  lemma {:induction false} DedupeNoThrow(cs: seq<Command>)
    requires forall a, b :: 0 <= a < b < |cs| && cs[a].addToProject.None? && cs[b].addToProject.Some? ==> cs[a].name != cs[b].name
    ensures Dedupe(cs).Ok?
    decreases |cs|
  {
    if cs != [] {
      var init, c := cs[..|cs| - 1], cs[|cs| - 1];
      assert forall a :: 0 <= a < |init| ==> init[a] == cs[a];
      DedupeNoThrow(init);
      if c.addToProject.Some? {
        DedupeKeepsFirst(init);
        FirstOccurrencesSeen(init);
        var kept := Dedupe(init).value;
        assert forall x :: x in kept && x.addToProject.None? ==> x.name != c.name by {
          forall x | x in kept && x.addToProject.None? ensures x.name != c.name {
            var a :| 0 <= a < |init| && init[a] == x;
          }
        }
        IsDuplicateNoThrow(kept, c);
      }
    }
  }

  lemma {:induction false} IsDuplicateNoThrow(kept: seq<Command>, c: Command)
    requires c.addToProject.Some?
    requires forall x :: x in kept && x.addToProject.None? ==> x.name != c.name
    ensures IsDuplicate(kept, c).Ok?
    decreases |kept|
  {
    if kept != [] {
      assert kept[0] in kept;
      assert forall x :: x in kept[1..] ==> x in kept;
      IsDuplicateNoThrow(kept[1..], c);
    }
  }

  /** A command without `addToProject` followed by an "add to project" command of its name throws. */
  lemma PlainBeforeSameNameThrows(name: string, url: string)
    ensures Dedupe([Command("label", name, "", None), CommandFor(name, url)]) == Err(UndefinedAddToProject(name))
  {
    var cs := [Command("label", name, "", None), CommandFor(name, url)];
    assert cs[..1] == [cs[0]];
    assert [cs[0]][..0] == [];
    assert Dedupe([cs[0]]) == Ok([] + [cs[0]]);
    assert [] + [cs[0]] == [cs[0]];
  }

  /** The commands labels-to-commands writes never make the script throw. */
  lemma GeneratedCommandsDedupe(entries: seq<LabelProjects>)
    ensures Dedupe(Transform(entries)).Ok?
  {
    TransformAddsToProject(entries);
    var cs := Transform(entries);
    assert forall a :: 0 <= a < |cs| ==> cs[a] in cs;
    DedupeNoThrow(cs);
  }
}
