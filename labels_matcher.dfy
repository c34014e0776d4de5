/**
 * The tally of pkg/scripts/labels-matcher/label-project-matcher.go: given the
 * project cards of the issues that carry one label, it counts, per distinct
 * project URL, how many cards point at that project, and lists the projects
 * by that count, highest first. The GraphQL query, its JSON decoding and the
 * printing are outside the model: the issues arrive as their card lists.
 */
module LabelsMatcher {
  import opened Seqs

  /** The `project { name url }` of one project card. */
  datatype Project = Project(name: string, url: string)

  /** DistinctProjectCard. */
  datatype Card = Card(name: string, url: string, counter: nat)

  // ---------------------------------------------------------------- counting

  /** The cards pointing at `url`. */
  function Count(ps: seq<Project>, url: string): nat
  {
    if ps == [] then 0 else Count(ps[..|ps| - 1], url) + (if ps[|ps| - 1].url == url then 1 else 0)
  }

  /** The cards whose project has a URL. */
  function NonEmpty(ps: seq<Project>): nat
  {
    if ps == [] then 0 else NonEmpty(ps[..|ps| - 1]) + (if ps[|ps| - 1].url != "" then 1 else 0)
  }

  predicate Occurs(ps: seq<Project>, url: string) {
    exists k :: 0 <= k < |ps| && ps[k].url == url
  }

  /** Where `url` occurs first. */
  function FirstIndex(ps: seq<Project>, url: string): (r: nat)
    requires Occurs(ps, url)
    ensures r < |ps| && ps[r].url == url && forall m :: 0 <= m < r ==> ps[m].url != url
  {
    var init := ps[..|ps| - 1];
    if Occurs(init, url) then
      var r := FirstIndex(init, url);
      assert ps[r] == init[r];
      r
    else
      assert forall m :: 0 <= m < |ps| - 1 ==> ps[m] == init[m];
      |ps| - 1
  }

  /**
   * The body of the inner loop (lines 158-169): a card without a URL is
   * ignored, the first card of a URL inserts it with a count of one, and any
   * later one increments its count.
   */
  function AddCard(m: map<string, Card>, p: Project): map<string, Card>
  {
    if p.url == "" then m
    else if p.url in m then m[p.url := m[p.url].(counter := m[p.url].counter + 1)]
    else m[p.url := Card(p.name, p.url, 1)]
  }

  /** The projectCards map after the cards `ps`, in order. */
  function Tally(ps: seq<Project>): map<string, Card>
  {
    if ps == [] then map[] else AddCard(Tally(ps[..|ps| - 1]), ps[|ps| - 1])
  }

  /** Dropping the last card leaves the occurrences of the others. */
  lemma OccursInit(ps: seq<Project>)
    requires ps != []
    ensures forall u :: Occurs(ps, u) <==> Occurs(ps[..|ps| - 1], u) || ps[|ps| - 1].url == u
  {
    assert forall k :: 0 <= k < |ps| - 1 ==> ps[k] == ps[..|ps| - 1][k];
  }

  /** There is one entry per distinct non-empty URL. */
  lemma {:induction false} TallyKeys(ps: seq<Project>)
    ensures forall u :: u in Tally(ps) <==> u != "" && Occurs(ps, u)
    decreases |ps|
  {
    if ps != [] {
      TallyKeys(ps[..|ps| - 1]);
      OccursInit(ps);
    }
  }

  /** The entry of a URL holds that URL and the number of cards pointing at it. */
  lemma {:induction false} TallyCounts(ps: seq<Project>)
    ensures forall u :: u in Tally(ps) ==> Tally(ps)[u].url == u && Tally(ps)[u].counter == Count(ps, u)
    decreases |ps|
  {
    if ps != [] {
      var init, p := ps[..|ps| - 1], ps[|ps| - 1];
      TallyCounts(init);
      TallyKeys(init);
      if p.url != "" && p.url !in Tally(init) {
        CountAbsent(init, p.url);
      }
    }
  }

  /** A URL not yet seen counts no cards. */
  lemma {:induction false} CountAbsent(ps: seq<Project>, u: string)
    requires !Occurs(ps, u)
    ensures Count(ps, u) == 0
    decreases |ps|
  {
    if ps != [] {
      OccursInit(ps);
      CountAbsent(ps[..|ps| - 1], u);
    }
  }

  /** The entry of a URL holds the name on the first card pointing at it. */
  lemma {:induction false} TallyNames(ps: seq<Project>)
    ensures forall u :: u in Tally(ps) ==> Occurs(ps, u) && Tally(ps)[u].name == ps[FirstIndex(ps, u)].name
    decreases |ps|
  {
    if ps != [] {
      var init := ps[..|ps| - 1];
      TallyNames(init);
      TallyKeys(init);
      TallyKeys(ps);
      OccursInit(ps);
      forall u | u in Tally(ps)
        ensures Tally(ps)[u].name == ps[FirstIndex(ps, u)].name
      {
        if Occurs(init, u) {
          assert FirstIndex(ps, u) == FirstIndex(init, u);
          assert ps[FirstIndex(init, u)] == init[FirstIndex(init, u)];
        }
      }
    }
  }

  // ---------------------------------------------------------------- the counters add up

  /** The counts of `urls`, added up. */
  function SumCounts(ps: seq<Project>, urls: seq<string>): nat
  {
    if urls == [] then 0 else Count(ps, urls[0]) + SumCounts(ps, urls[1..])
  }

  predicate Distinct(urls: seq<string>) {
    forall a, b :: 0 <= a < b < |urls| ==> urls[a] != urls[b]
  }

  /** One more card adds one to the count of exactly one listed URL, if any. */
  lemma {:induction false} SumCountsStep(ps: seq<Project>, p: Project, urls: seq<string>)
    requires Distinct(urls)
    ensures SumCounts(ps + [p], urls) == SumCounts(ps, urls) + (if p.url in urls then 1 else 0)
    decreases |urls|
  {
    assert (ps + [p])[..|ps|] == ps;
    if urls != [] {
      assert Distinct(urls[1..]) by {
        forall a, b | 0 <= a < b < |urls[1..]| ensures urls[1..][a] != urls[1..][b] {
          assert urls[1..][a] == urls[a + 1] && urls[1..][b] == urls[b + 1];
        }
      }
      SumCountsStep(ps, p, urls[1..]);
      assert p.url in urls <==> p.url == urls[0] || p.url in urls[1..];
      assert urls[0] !in urls[1..] by {
        forall b | 0 <= b < |urls[1..]| ensures urls[1..][b] != urls[0] {
          assert urls[1..][b] == urls[b + 1];
        }
      }
    }
  }

  /** Counting over distinct URLs that cover every non-empty one counts every card with a URL once. */
  lemma {:induction false} SumCountsCovers(ps: seq<Project>, urls: seq<string>)
    requires Distinct(urls) && "" !in urls
    requires forall k :: 0 <= k < |ps| && ps[k].url != "" ==> ps[k].url in urls
    ensures SumCounts(ps, urls) == NonEmpty(ps)
    decreases |ps|
  {
    if ps == [] {
      SumCountsEmpty(urls);
    } else {
      var init, p := ps[..|ps| - 1], ps[|ps| - 1];
      assert forall k :: 0 <= k < |init| ==> init[k] == ps[k];
      SumCountsCovers(init, urls);
      assert init + [p] == ps;
      SumCountsStep(init, p, urls);
    }
  }

  lemma {:induction false} SumCountsEmpty(urls: seq<string>)
    ensures SumCounts([], urls) == 0
    decreases |urls|
  {
    if urls != [] {
      SumCountsEmpty(urls[1..]);
    }
  }

  function UrlsOf(cards: seq<Card>): seq<string>
  {
    if cards == [] then [] else [cards[0].url] + UrlsOf(cards[1..])
  }

  function CounterSum(cards: seq<Card>): nat
  {
    if cards == [] then 0 else cards[0].counter + CounterSum(cards[1..])
  }

  lemma {:induction false} UrlsOfIndex(cards: seq<Card>)
    ensures |UrlsOf(cards)| == |cards| && forall k :: 0 <= k < |cards| ==> UrlsOf(cards)[k] == cards[k].url
    decreases |cards|
  {
    if cards != [] {
      UrlsOfIndex(cards[1..]);
    }
  }

  /** Cards that hold the counts of their URLs add up to the counts of those URLs. */
  lemma {:induction false} CounterSumCounts(ps: seq<Project>, cards: seq<Card>)
    requires forall c :: c in cards ==> c.counter == Count(ps, c.url)
    ensures CounterSum(cards) == SumCounts(ps, UrlsOf(cards))
    decreases |cards|
  {
    if cards != [] {
      assert cards[0] in cards;
      assert forall c :: c in cards[1..] ==> c in cards;
      CounterSumCounts(ps, cards[1..]);
    }
  }

  predicate UrlsDistinct(cards: seq<Card>) {
    forall a, b :: 0 <= a < b < |cards| ==> cards[a].url != cards[b].url
  }

  // ---------------------------------------------------------------- sorting

  predicate Descending(cards: seq<Card>) {
    forall a, b :: 0 <= a < b < |cards| ==> cards[a].counter >= cards[b].counter
  }

  /** `c` placed before the first card whose counter it reaches. */
  function Insert(c: Card, s: seq<Card>): seq<Card>
  {
    if s == [] then [c]
    else if c.counter >= s[0].counter then [c] + s
    else [s[0]] + Insert(c, s[1..])
  }

  /** Insertion adds `c` and loses nothing. */
  lemma {:induction false} InsertPermutes(c: Card, s: seq<Card>)
    ensures multiset(Insert(c, s)) == multiset(s) + multiset{c}
    ensures CounterSum(Insert(c, s)) == c.counter + CounterSum(s)
    decreases |s|
  {
    if s != [] && c.counter < s[0].counter {
      InsertPermutes(c, s[1..]);
      assert s == [s[0]] + s[1..];
    }
  }

  /** The cards after insertion are `c` and the cards before it. */
  lemma {:induction false} InsertMembers(c: Card, s: seq<Card>)
    ensures |Insert(c, s)| == |s| + 1
    ensures forall x :: x in Insert(c, s) <==> x == c || x in s
    ensures s != [] ==> Insert(c, s)[0] == c || Insert(c, s)[0] == s[0]
    decreases |s|
  {
    if s != [] && c.counter < s[0].counter {
      InsertMembers(c, s[1..]);
      assert s == [s[0]] + s[1..];
    }
  }

  /** Insertion into cards sorted by counter keeps them sorted. */
  lemma {:induction false} InsertSorted(c: Card, s: seq<Card>)
    requires Descending(s)
    ensures Descending(Insert(c, s))
    decreases |s|
  {
    if s != [] && c.counter < s[0].counter {
      var t := Insert(c, s[1..]);
      InsertSorted(c, s[1..]);
      InsertMembers(c, s[1..]);
      if s[1..] != [] {
        assert t[0] == c || t[0] == s[1];
      }
      assert forall b :: 0 <= b < |t| ==> s[0].counter >= t[0].counter >= t[b].counter;
      assert Insert(c, s) == [s[0]] + t;
    }
  }

  /** Insertion of a card whose URL is new keeps the URLs distinct. */
  lemma {:induction false} InsertDistinct(c: Card, s: seq<Card>)
    requires UrlsDistinct(s) && forall x :: x in s ==> x.url != c.url
    ensures UrlsDistinct(Insert(c, s))
    decreases |s|
  {
    if s != [] && c.counter < s[0].counter {
      var t := Insert(c, s[1..]);
      assert forall x :: x in s[1..] ==> x in s;
      assert forall b :: 0 <= b < |s[1..]| ==> s[1..][b].url != s[0].url by {
        assert forall b :: 0 <= b < |s[1..]| ==> s[1..][b] == s[b + 1];
      }
      InsertDistinct(c, s[1..]);
      InsertMembers(c, s[1..]);
      assert forall b :: 0 <= b < |t| ==> t[b] in t;
      assert s[0] in s;
      assert Insert(c, s) == [s[0]] + t;
    }
  }

  /** Insertion sort by counter, highest first. */
  function SortByCounter(s: seq<Card>): seq<Card>
  {
    if s == [] then [] else Insert(s[0], SortByCounter(s[1..]))
  }

  /** The sort loses no card and gains none. */
  lemma {:induction false} SortPermutes(s: seq<Card>)
    ensures multiset(SortByCounter(s)) == multiset(s) && CounterSum(SortByCounter(s)) == CounterSum(s)
    ensures forall x :: x in SortByCounter(s) <==> x in s
    decreases |s|
  {
    if s != [] {
      var t := SortByCounter(s[1..]);
      assert SortByCounter(s) == Insert(s[0], t);
      SortPermutes(s[1..]);
      InsertPermutes(s[0], t);
      InsertMembers(s[0], t);
      assert s == [s[0]] + s[1..];
      assert multiset(s) == multiset(s[1..]) + multiset{s[0]};
      assert CounterSum(s) == s[0].counter + CounterSum(s[1..]);
    }
  }

  /** The sort orders the cards by counter, highest first. */
  lemma {:induction false} SortSorted(s: seq<Card>)
    ensures Descending(SortByCounter(s))
    decreases |s|
  {
    if s != [] {
      SortSorted(s[1..]);
      InsertSorted(s[0], SortByCounter(s[1..]));
    }
  }

  /** The sort keeps URLs distinct. */
  lemma {:induction false} SortDistinct(s: seq<Card>)
    requires UrlsDistinct(s)
    ensures UrlsDistinct(SortByCounter(s))
    decreases |s|
  {
    if s != [] {
      var t := SortByCounter(s[1..]);
      assert forall b :: 0 <= b < |s[1..]| ==> s[1..][b] == s[b + 1];
      SortDistinct(s[1..]);
      SortPermutes(s[1..]);
      assert forall x :: x in s[1..] ==> x.url != s[0].url;
      InsertDistinct(s[0], t);
    }
  }

  /**
   * sort.Slice(cards, cards[i].Counter > cards[j].Counter): the cards, by
   * counter, highest first; the order among equal counters is left open.
   */
  method SortCards(cards: seq<Card>) returns (sorted: seq<Card>)
    ensures multiset(sorted) == multiset(cards) && Descending(sorted)
    ensures CounterSum(sorted) == CounterSum(cards)
    ensures UrlsDistinct(cards) ==> UrlsDistinct(sorted)
  {
    sorted := SortByCounter(cards);
    SortPermutes(cards);
    SortSorted(cards);
    if UrlsDistinct(cards) {
      SortDistinct(cards);
    }
  }

  // ---------------------------------------------------------------- the script

  lemma TallyStep(before: seq<Project>, cards: seq<Project>, j: nat)
    requires j < |cards|
    ensures Tally(before + cards[..j + 1]) == AddCard(Tally(before + cards[..j]), cards[j])
  {
    assert (before + cards[..j + 1])[..|before| + j] == before + cards[..j];
  }

  lemma ConcatStep<T>(parts: seq<seq<T>>, i: nat)
    requires i < |parts|
    ensures Concat(parts[..i + 1]) == Concat(parts[..i]) + parts[i]
  {
    ConcatAppend(parts[..i], [parts[i]]);
    assert parts[..i + 1] == parts[..i] + [parts[i]];
    assert [parts[i]][1..] == [];
    assert Concat([parts[i]]) == parts[i] + Concat([]);
    assert parts[i] + [] == parts[i];
  }

  /** The two loops of lines 156-172 over the card lists of the issues. */
  method TallyCards(issues: seq<seq<Project>>) returns (projectCards: map<string, Card>)
    ensures projectCards == Tally(Concat(issues))
  {
    projectCards := map[];
    var i := 0;
    while i < |issues|
      invariant 0 <= i <= |issues| && projectCards == Tally(Concat(issues[..i]))
    {
      ghost var before := Concat(issues[..i]);
      var cards := issues[i];
      var j := 0;
      assert before + cards[..0] == before;
      while j < |cards|
        invariant 0 <= j <= |cards| && projectCards == Tally(before + cards[..j])
      {
        TallyStep(before, cards, j);
        projectCards := AddCard(projectCards, cards[j]);
        j := j + 1;
      }
      assert cards[..j] == cards;
      ConcatStep(issues, i);
      i := i + 1;
    }
    assert issues[..i] == issues;
  }

  /**
   * The `for _, card := range projectCards` of lines 174-177: every entry
   * once, in an order the map iteration leaves open.
   */
  method Entries(m: map<string, Card>) returns (cards: seq<Card>)
    requires forall u :: u in m ==> m[u].url == u
    ensures |cards| == |m| && UrlsDistinct(cards)
    ensures forall c :: c in cards ==> c.url in m && m[c.url] == c
    ensures forall u :: u in m ==> m[u] in cards
  {
    cards := [];
    var remaining := m.Keys;
    while remaining != {}
      invariant remaining <= m.Keys && |cards| + |remaining| == |m|
      invariant UrlsDistinct(cards)
      invariant forall c :: c in cards ==> c.url in m && c.url !in remaining && m[c.url] == c
      invariant forall u :: u in m && u !in remaining ==> m[u] in cards
      decreases remaining
    {
      var u :| u in remaining;
      cards := cards + [m[u]];
      remaining := remaining - {u};
    }
  }

  /** The entries of the tally add up to the cards with a URL, and every such card has its entry. */
  lemma EntriesCount(all: seq<Project>, unsorted: seq<Card>)
    requires UrlsDistinct(unsorted)
    requires forall c :: c in unsorted ==> c.url in Tally(all) && Tally(all)[c.url] == c
    requires forall u :: u in Tally(all) ==> Tally(all)[u] in unsorted
    ensures CounterSum(unsorted) == NonEmpty(all)
    ensures forall k :: 0 <= k < |all| && all[k].url != "" ==> exists c :: c in unsorted && c.url == all[k].url
  {
    TallyKeys(all);
    TallyCounts(all);
    UrlsOfIndex(unsorted);
    var urls := UrlsOf(unsorted);
    forall k | 0 <= k < |all| && all[k].url != ""
      ensures all[k].url in urls && exists c :: c in unsorted && c.url == all[k].url
    {
      assert Occurs(all, all[k].url);
      var c := Tally(all)[all[k].url];
      var b :| 0 <= b < |unsorted| && unsorted[b] == c;
      assert urls[b] == all[k].url;
    }
    CounterSumCounts(all, unsorted);
    SumCountsCovers(all, urls);
  }

  /**
   * Lines 153-182: the projects of the cards, one per distinct non-empty
   * URL, with the number of cards pointing at each and the name on the
   * first of them, highest count first; the counts add up to the cards that
   * have a URL.
   */
  method MatchProjects(issues: seq<seq<Project>>) returns (cards: seq<Card>)
    ensures var all := Concat(issues);
      Descending(cards) && UrlsDistinct(cards)
      && (forall c :: c in cards ==>
            c.url != "" && Occurs(all, c.url) && c.counter == Count(all, c.url) && c.name == all[FirstIndex(all, c.url)].name)
      && (forall k :: 0 <= k < |all| && all[k].url != "" ==> exists c :: c in cards && c.url == all[k].url)
      && CounterSum(cards) == NonEmpty(all)
  {
    ghost var all := Concat(issues);
    var projectCards := TallyCards(issues);
    TallyCounts(all);
    var unsorted := Entries(projectCards);
    EntriesCount(all, unsorted);
    cards := SortCards(unsorted);
    TallyKeys(all);
    TallyNames(all);
    forall c | c in cards
      ensures c in unsorted
    {
      assert c in multiset(unsorted);
    }
    forall k | 0 <= k < |all| && all[k].url != ""
      ensures exists c :: c in cards && c.url == all[k].url
    {
      var c :| c in unsorted && c.url == all[k].url;
      assert c in multiset(cards);
    }
  }
}
