/**
 * The token-budget loop shared by the three fine-tune dataset builders
 * (fine-tuner.go, categorizer.go, qualitizer.go): rows are turned into
 * candidates one by one; a row whose prompt could not be built, marshalled or
 * encoded is skipped, a prompt whose tokens would carry the running total past
 * the budget stops the loop, and every other prompt is accepted.
 */
module TokenBudget {

  /** One row of the loop: skipped before the budget check, or a prompt with its token count. */
  datatype Candidate<T> = Skipped | Priced(item: T, tokens: nat)

  /**
   * What the loop ends with: the accepted prompts, the running total, how many
   * candidates were consumed before it ended, and whether it ended on an overflow.
   */
  datatype Selection<T> = Selection(accepted: seq<T>, totalTokens: nat, scanned: nat, stopped: bool)

  /** The priced items of `cs`, in order. */
  function Items<T>(cs: seq<Candidate<T>>): seq<T>
  {
    if cs == [] then [] else (if cs[0].Priced? then [cs[0].item] else []) + Items(cs[1..])
  }

  /** The tokens of the priced candidates of `cs`. */
  function Cost<T>(cs: seq<Candidate<T>>): nat
  {
    if cs == [] then 0 else (if cs[0].Priced? then cs[0].tokens else 0) + Cost(cs[1..])
  }

  /**
   * The loop `if totalTokens + len(tokens) > maxTokens { break }; totalTokens += len(tokens)`
   * run over `cs` from a running total `used`.
   */
  function Take<T>(cs: seq<Candidate<T>>, max: int, used: nat): (r: Selection<T>)
    ensures r.scanned <= |cs|
    ensures r.accepted == Items(cs[..r.scanned])
    ensures r.totalTokens == used + Cost(cs[..r.scanned])
    ensures used <= max ==> r.totalTokens <= max
    ensures r.stopped ==> r.scanned < |cs| && cs[r.scanned].Priced? && r.totalTokens + cs[r.scanned].tokens > max
    ensures !r.stopped ==> r.scanned == |cs|
    decreases |cs|
  {
    if cs == [] then Selection([], used, 0, false)
    else
      match cs[0]
      case Skipped =>
        var r := Take(cs[1..], max, used);
        assert cs[..r.scanned + 1][1..] == cs[1..][..r.scanned];
        r.(scanned := r.scanned + 1)
      case Priced(x, t) =>
        if used + t > max then
          assert cs[..0] == [];
          Selection([], used, 0, true)
        else
          var r := Take(cs[1..], max, used + t);
          assert cs[..r.scanned + 1][1..] == cs[1..][..r.scanned];
          Selection([x] + r.accepted, r.totalTokens, r.scanned + 1, r.stopped)
  }

  /** Running the loop on `prefix` first and then on the rest is one run on the whole. */
  function Continue<T>(acc: seq<T>, consumed: nat, rest: Selection<T>): Selection<T>
  {
    Selection(acc + rest.accepted, rest.totalTokens, consumed + rest.scanned, rest.stopped)
  }

  /**
   * The loop after consuming `i` candidates with `acc` accepted and `used`
   * tokens counted: running on from there gives the run over all of `cs`.
   */
  ghost predicate Selecting<T>(cs: seq<Candidate<T>>, max: int, i: nat, acc: seq<T>, used: nat)
  {
    i <= |cs| && Continue(acc, i, Take(cs[i..], max, used)) == Take(cs, max, 0)
  }

  lemma TakeStart<T>(cs: seq<Candidate<T>>, max: int)
    ensures Selecting(cs, max, 0, [], 0)
  {
    assert cs[0..] == cs;
    assert [] + Take(cs, max, 0).accepted == Take(cs, max, 0).accepted;
  }

  /** One skipped candidate: the loop goes on from the next one. */
  lemma TakeSkip<T>(cs: seq<Candidate<T>>, max: int, used: nat, acc: seq<T>, i: nat)
    requires i < |cs| && cs[i].Skipped? && Selecting(cs, max, i, acc, used)
    ensures Selecting(cs, max, i + 1, acc, used)
  {
    assert cs[i..][1..] == cs[i + 1..];
  }

  /** One accepted candidate: it is appended and the loop goes on from the next one. */
  lemma TakeAccept<T>(cs: seq<Candidate<T>>, max: int, used: nat, acc: seq<T>, i: nat)
    requires i < |cs| && cs[i].Priced? && used + cs[i].tokens <= max && Selecting(cs, max, i, acc, used)
    ensures Selecting(cs, max, i + 1, acc + [cs[i].item], used + cs[i].tokens)
  {
    assert cs[i..][1..] == cs[i + 1..];
  }

  /** A candidate that would carry the total past the budget ends the loop before it. */
  lemma TakeStop<T>(cs: seq<Candidate<T>>, max: int, used: nat, acc: seq<T>, i: nat)
    requires i < |cs| && cs[i].Priced? && used + cs[i].tokens > max && Selecting(cs, max, i, acc, used)
    ensures Take(cs, max, 0) == Selection(acc, used, i, true)
  {
    assert acc + [] == acc;
  }

  /** With every candidate consumed, the loop has ended without an overflow. */
  lemma TakeDone<T>(cs: seq<Candidate<T>>, max: int, used: nat, acc: seq<T>)
    requires Selecting(cs, max, |cs|, acc, used)
    ensures Take(cs, max, 0) == Selection(acc, used, |cs|, false)
  {
    assert cs[|cs|..] == [];
    assert acc + [] == acc;
  }

  /**
   * The budget check of the row loops, on candidate `i`: a skipped candidate
   * changes nothing, a prompt that would carry the total past `max` stops
   * the loop (`break`), and any other is counted and appended.
   */
  method Consume<T>(ghost cs: seq<Candidate<T>>, max: int, i: nat, c: Candidate<T>, acc: seq<T>, used: nat, count: nat)
    returns (acc': seq<T>, used': nat, count': nat, stop: bool)
    requires i < |cs| && cs[i] == c && Selecting(cs, max, i, acc, used) && count == |acc|
    ensures count' == |acc'|
    ensures stop ==> (acc', used') == (acc, used) && Take(cs, max, 0) == Selection(acc, used, i, true)
    ensures !stop ==> Selecting(cs, max, i + 1, acc', used')
  {
    acc', used', count', stop := acc, used, count, false;
    match c {
      case Skipped =>
        TakeSkip(cs, max, used, acc, i);
      case Priced(item, tokens) =>
        if used + tokens > max {
          TakeStop(cs, max, used, acc, i);
          stop := true;
          return;
        }
        TakeAccept(cs, max, used, acc, i);
        count' := count + 1;
        used' := used + tokens;
        acc' := acc + [item];
    }
  }

  /** Every accepted item is the item of some priced candidate. */
  lemma {:induction false} ItemSource<T>(cs: seq<Candidate<T>>, k: nat) returns (j: nat)
    requires k < |Items(cs)|
    ensures j < |cs| && cs[j].Priced? && cs[j].item == Items(cs)[k]
  {
    if cs[0].Priced? && k == 0 {
      j := 0;
    } else {
      var k' := if cs[0].Priced? then k - 1 else k;
      var j' := ItemSource(cs[1..], k');
      j := j' + 1;
    }
  }

}
