/**
 * The script pkg/scripts/batch-issue-assign-project: for each category label
 * it pages through the open grafana/grafana issues carrying that label, takes
 * the first issue created since 2024-01-01 by an author with no association
 * to the repository, and for every label of that issue runs each command of
 * the same name: the command's project URL is parsed, its project node id
 * is looked up (and memoised per URL), the user confirms, and the issue is
 * added to the project. The first failure ends the script; so does the first
 * issue processed.
 *
 * GitHub (issue search, project node id, project assignment) and the console
 * are oracles in `Services` and in the page sequences.
 */
module AssignProject {
  import opened Common
  import opened Strings
  import opened Seqs

  /** An element of fixtures/commands.json; only `name` and `addToProject.url` are read. */
  datatype Command = Command(kind: string, name: string, action: string, url: string)

  /** The fields of a searched issue the script reads. `createdAt` is in Unix seconds. */
  datatype SearchIssue = SearchIssue(
    number: int,
    nodeId: string,
    title: string,
    labels: seq<Label>,
    createdAt: int,
    authorAssociation: string)

  /** Why assigning one project failed. `Assigning` is the wrapper executeCommandsForIssue adds. */
  datatype AssignError =
    | InvalidProjectUrl(url: string)
    | BadProjectNumber(numErr: NumError)
    | NodeIdError(message: string)
    | ReadError(message: string)
    | Declined
    | AssignFailed(message: string)
    | Assigning(cause: AssignError)

  /**
   * The outside world of assignProjectToIssue: GetProjectNodeId(org, number),
   * fmt.Scanln's answer to the question about (url, issue number) and the
   * AssignProjectToIssue mutation on (issue node id, project node id). Each
   * question reads the next line of standard input, so the answer is
   * indexed by the number of questions asked before it: the same question
   * asked twice can be answered differently.
   */
  datatype Services = Services(
    fetchNodeId: (string, int) -> Result<string, string>,
    confirm: (nat, string, int) -> Result<string, string>,
    assign: (string, string) -> Option<string>)

  // ---------------------------------------------------------------- the project URL

  /**
   * The pattern `https://github.com/orgs/.*?/projects/(\d+)` matches at `i`
   * with its lazy `.*?` ending at `j`: the literal head (whose `.` is any
   * character but a newline), no newline up to `j`, then `/projects/` and a
   * digit.
   */
  predicate MatchAt(s: string, i: int, j: int) {
    0 <= i && i + 24 <= j && j + 10 < |s|
    && s[i..i + 14] == "https://github" && s[i + 14] != '\n' && s[i + 15..i + 24] == "com/orgs/"
    && (forall k :: i + 24 <= k < j ==> s[k] != '\n')
    && s[j..j + 10] == "/projects/" && IsDigit(s[j + 10])
  }

  /** The lazy `.*?` from position `j`: the first end that lets the rest of the pattern match. */
  function LazyEnd(s: string, i: nat, j: nat): (r: Option<nat>)
    requires i + 24 <= j <= |s|
    requires s[i..i + 14] == "https://github" && s[i + 14] != '\n' && s[i + 15..i + 24] == "com/orgs/"
    requires forall k :: i + 24 <= k < j ==> s[k] != '\n'
    ensures r.Some? ==> j <= r.value && MatchAt(s, i, r.value)
    ensures forall e :: j <= e && (r.None? || e < r.value) ==> !MatchAt(s, i, e)
    decreases |s| - j
  {
    if j + 10 >= |s| then None
    else if s[j..j + 10] == "/projects/" && IsDigit(s[j + 10]) then Some(j)
    else if s[j] == '\n' then None
    else LazyEnd(s, i, j + 1)
  }

  /** regexp's leftmost match from position `i` on: its start and the end of its `.*?`. */
  function FindFrom(s: string, i: nat): (r: Option<(nat, nat)>)
    requires i <= |s|
    ensures r.Some? ==> i <= r.value.0 && MatchAt(s, r.value.0, r.value.1)
    ensures r.Some? ==> forall e :: e < r.value.1 ==> !MatchAt(s, r.value.0, e)
    ensures forall a, e :: i <= a && (r.None? || a < r.value.0) ==> !MatchAt(s, a, e)
    decreases |s| - i
  {
    if i + 24 > |s| then None
    else if s[i..i + 14] == "https://github" && s[i + 14] != '\n' && s[i + 15..i + 24] == "com/orgs/"
            && LazyEnd(s, i, i + 24).Some? then
      Some((i, LazyEnd(s, i, i + 24).value))
    else FindFrom(s, i + 1)
  }

  /** The end of the run of digits starting at `k` (the greedy `\d+`). */
  function DigitEnd(s: string, k: nat): (r: nat)
    requires k <= |s|
    ensures k <= r <= |s| && AllDigits(s[k..r]) && (r == |s| || !IsDigit(s[r]))
    decreases |s| - k
  {
    if k < |s| && IsDigit(s[k]) then
      var r := DigitEnd(s, k + 1);
      assert forall m :: 0 <= m < r - k ==> s[k..r][m] == s[k + m];
      r
    else k
  }

  /**
   * FindStringSubmatch followed by strconv.Atoi of the captured digits: no
   * match is an "invalid project url" error, a number outside int64 is
   * Atoi's error.
   */
  function ProjectNumber(url: string): Result<int, AssignError>
  {
    match FindFrom(url, 0)
    case None => Err(InvalidProjectUrl(url))
    case Some((i, j)) =>
      var digits := url[j + 10..DigitEnd(url, j + 10)];
      var (n, e) := Atoi(digits);
      if e.Some? then Err(BadProjectNumber(e.value)) else Ok(n)
  }

  /** The URL is rejected as invalid exactly when the pattern matches nowhere in it. */
  lemma InvalidProjectUrlIffNoMatch(url: string)
    ensures ProjectNumber(url) == Err(InvalidProjectUrl(url)) <==> forall i, j :: !MatchAt(url, i, j)
  {
    var r := FindFrom(url, 0);
    if r.Some? {
      assert MatchAt(url, r.value.0, r.value.1);
    }
  }

  /** A project URL as GitHub prints it. */
  function ProjectUrl(org: string, n: nat): string {
    "https://github.com/orgs/" + org + "/projects/" + Itoa(n)
  }

  /** The pieces of a project URL followed by `tail`, by position. */
  predicate Laid(s: string, org: string, tail: string) {
    |s| == 34 + |org| + |tail|
    && s[0..14] == "https://github" && s[14] == '.' && s[15..24] == "com/orgs/"
    && (forall k :: 24 <= k < 24 + |org| ==> s[k] == org[k - 24])
    && s[24 + |org|..34 + |org|] == "/projects/"
    && s[34 + |org|..] == tail
  }

  lemma LayOut(org: string, tail: string)
    ensures Laid("https://github.com/orgs/" + org + "/projects/" + tail, org, tail)
  {
  }

  /** In a project URL whose org has no slash, the lazy `.*?` stops right after the org. */
  lemma {:induction false} LazyEndAfterOrg(s: string, org: string, tail: string, j: nat)
    requires Laid(s, org, tail) && tail != "" && IsDigit(tail[0])
    requires forall k :: 0 <= k < |org| ==> org[k] != '/' && org[k] != '\n'
    requires 24 <= j <= 24 + |org|
    ensures s[0..14] == "https://github" && s[14] != '\n' && s[15..24] == "com/orgs/"
    ensures forall k :: 24 <= k < j ==> s[k] != '\n'
    ensures LazyEnd(s, 0, j) == Some(24 + |org|)
    decreases 24 + |org| - j
  {
    assert s[34 + |org|] == tail[0];
    if j < 24 + |org| {
      assert s[j..j + 10][0] == s[j] == org[j - 24];
      LazyEndAfterOrg(s, org, tail, j + 1);
    }
  }

  /**
   * The number of a project URL is parsed back, whatever follows it (a
   * `/views/1`, say) as long as it does not go on with a digit.
   */
  lemma ProjectUrlRoundTrip(org: string, n: nat, rest: string)
    requires forall k :: 0 <= k < |org| ==> org[k] != '/' && org[k] != '\n'
    requires n <= MaxInt64
    requires rest == "" || !IsDigit(rest[0])
    ensures ProjectNumber(ProjectUrl(org, n) + rest) == Ok(n)
  {
    var d := Itoa(n);
    var s := ProjectUrl(org, n) + rest;
    assert s == "https://github.com/orgs/" + org + "/projects/" + (d + rest);
    LayOut(org, d + rest);
    assert AllDigits(d) && d[0] == (d + rest)[0];
    LazyEndAfterOrg(s, org, d + rest, 24);
    assert FindFrom(s, 0) == Some((0, 24 + |org|));
    DigitsThenRest(s, 34 + |org|, d, rest);
    AtoiItoa(n);
  }

  /** Where `s` goes on with the digits `d` and then a non-digit, the digit run is `d`. */
  lemma DigitsThenRest(s: string, k: nat, d: string, rest: string)
    requires k <= |s| && s[k..] == d + rest && AllDigits(d) && (rest == "" || !IsDigit(rest[0]))
    ensures k + |d| <= |s| && s[k..DigitEnd(s, k)] == d
  {
    assert forall m :: k <= m < k + |d| ==> s[m] == s[k..][m - k] == d[m - k];
    assert k + |d| < |s| ==> s[k + |d|] == rest[0];
    DigitEndOver(s, k, k + |d|);
    assert s[k..k + |d|] == s[k..][..|d|];
  }

  /** The digit run from `k` reaches a non-digit (or the end) at `e`. */
  lemma {:induction false} DigitEndOver(s: string, k: nat, e: nat)
    requires k <= e <= |s| && (forall m :: k <= m < e ==> IsDigit(s[m])) && (e == |s| || !IsDigit(s[e]))
    ensures DigitEnd(s, k) == e
    decreases e - k
  {
    if k < e {
      DigitEndOver(s, k + 1, e);
    }
  }

  // ---------------------------------------------------------------- one assignment

  /**
   * What one assignProjectToIssue leaves: the error if any, the node-id
   * cache, the URLs whose node id was fetched, the assignment mutations
   * sent as (issue node id, project node id), and the number of questions
   * asked by then, counted from the start of the script.
   */
  datatype Step = Step(err: Option<AssignError>, cache: map<string, string>, fetched: seq<string>,
                       calls: seq<(string, string)>, asked: nat)

  /** The confirmation, as question number `asked`, and the mutation, once the project node id is known. */
  function ConfirmAndAssign(cache: map<string, string>, fetched: seq<string>, asked: nat, url: string, nodeId: string,
                            issue: SearchIssue, svc: Services): Step
  {
    match svc.confirm(asked, url, issue.number)
    case Err(e) => Step(Some(ReadError(e)), cache, fetched, [], asked + 1)
    case Ok(answer) =>
      if answer != "y" then Step(Some(Declined), cache, fetched, [], asked + 1)
      else
        var sent := svc.assign(issue.nodeId, nodeId);
        Step(if sent.Some? then Some(AssignFailed(sent.value)) else None, cache, fetched, [(issue.nodeId, nodeId)], asked + 1)
  }

  /**
   * assignProjectToIssue: parse the URL, look its node id up in the cache or
   * fetch it for the organisation "grafana" and store it, then confirm and
   * assign; `asked` questions were asked before this one.
   */
  function Assign(cache: map<string, string>, asked: nat, url: string, issue: SearchIssue, svc: Services): Step
  {
    match ProjectNumber(url)
    case Err(e) => Step(Some(e), cache, [], [], asked)
    case Ok(n) =>
      if url in cache then ConfirmAndAssign(cache, [], asked, url, cache[url], issue, svc)
      else
        match svc.fetchNodeId("grafana", n)
        case Err(e) => Step(Some(NodeIdError(e)), cache, [url], [], asked)
        case Ok(id) => ConfirmAndAssign(cache[url := id], [url], asked, url, id, issue, svc)
  }

  /**
   * The cache only grows: the node id is fetched only for a URL absent from
   * it, and a successful fetch is stored under that URL; the stored node id
   * is the one the mutation uses.
   */
  lemma AssignCache(cache: map<string, string>, asked: nat, url: string, issue: SearchIssue, svc: Services)
    ensures var r := Assign(cache, asked, url, issue, svc);
      (r.fetched == [] || (r.fetched == [url] && url !in cache))
      && (r.cache == cache
          || (r.fetched == [url] && ProjectNumber(url).Ok?
              && svc.fetchNodeId("grafana", ProjectNumber(url).value) == Ok(r.cache[url])
              && r.cache == cache[url := r.cache[url]]))
      && (ProjectNumber(url).Ok? && (url in cache || svc.fetchNodeId("grafana", ProjectNumber(url).value).Ok?)
          ==> url in r.cache)
      && (r.calls != [] ==> url in r.cache && r.calls == [(issue.nodeId, r.cache[url])])
  {
  }

  /** A URL already in the cache is never fetched: the fetcher does not matter. */
  lemma CachedUrlNotFetched(cache: map<string, string>, asked: nat, url: string, issue: SearchIssue, svc: Services,
                            other: (string, int) -> Result<string, string>)
    requires url in cache
    ensures Assign(cache, asked, url, issue, svc) == Assign(cache, asked, url, issue, svc.(fetchNodeId := other))
    ensures Assign(cache, asked, url, issue, svc).fetched == []
  {
  }

  /** The mutation is sent exactly when the URL and node id are good and the user answered exactly "y". */
  lemma AssignOnlyOnYes(cache: map<string, string>, asked: nat, url: string, issue: SearchIssue, svc: Services)
    ensures var r := Assign(cache, asked, url, issue, svc);
      r.calls != [] <==>
        ProjectNumber(url).Ok?
        && (url in cache || svc.fetchNodeId("grafana", ProjectNumber(url).value).Ok?)
        && svc.confirm(asked, url, issue.number) == Ok("y")
    ensures var r := Assign(cache, asked, url, issue, svc);
      r.err.None? <==> r.calls != [] && svc.assign(issue.nodeId, r.cache[url]).None?
  {
  }

  /** The question is asked, once, exactly when the URL parses and a node id is known or fetched. */
  lemma AssignAsksOnce(cache: map<string, string>, asked: nat, url: string, issue: SearchIssue, svc: Services)
    ensures var r := Assign(cache, asked, url, issue, svc);
      r.asked == asked + (if ProjectNumber(url).Ok? && (url in cache || svc.fetchNodeId("grafana", ProjectNumber(url).value).Ok?) then 1 else 0)
      && |r.calls| <= r.asked - asked
  {
  }

  // ---------------------------------------------------------------- the commands of one issue

  /** The project URLs of the commands named `name`, in command order. */
  function UrlsFor(name: string, commands: seq<Command>): seq<string>
  {
    if commands == [] then []
    else
      var last := commands[|commands| - 1];
      UrlsFor(name, commands[..|commands| - 1]) + (if last.name == name then [last.url] else [])
  }

  /** For each label in order, the URLs of the commands of that name. */
  function MatchingUrls(labels: seq<Label>, commands: seq<Command>): seq<string>
  {
    if labels == [] then []
    else MatchingUrls(labels[..|labels| - 1], commands) + UrlsFor(labels[|labels| - 1].name, commands)
  }

  lemma {:induction false} UrlsForAppend(name: string, a: seq<Command>, b: seq<Command>)
    ensures UrlsFor(name, a + b) == UrlsFor(name, a) + UrlsFor(name, b)
    decreases |b|
  {
    if b == [] {
      assert a + b == a;
    } else {
      assert (a + b)[..|a + b| - 1] == a + b[..|b| - 1];
      UrlsForAppend(name, a, b[..|b| - 1]);
    }
  }

  lemma {:induction false} MatchingUrlsAppend(a: seq<Label>, b: seq<Label>, commands: seq<Command>)
    ensures MatchingUrls(a + b, commands) == MatchingUrls(a, commands) + MatchingUrls(b, commands)
    decreases |b|
  {
    if b == [] {
      assert a + b == a;
    } else {
      assert (a + b)[..|a + b| - 1] == a + b[..|b| - 1];
      MatchingUrlsAppend(a, b[..|b| - 1], commands);
    }
  }

  /** A URL of UrlsFor is the URL of a command of that name, and each such command gives one. */
  lemma {:induction false} UrlsForMembers(name: string, commands: seq<Command>)
    ensures forall u :: u in UrlsFor(name, commands) <==> exists c :: c in commands && c.name == name && c.url == u
    decreases |commands|
  {
    if commands != [] {
      var init := commands[..|commands| - 1];
      UrlsForMembers(name, init);
      assert commands == init + [commands[|commands| - 1]];
    }
  }

  /** The applied URLs are exactly those of the commands named after some label of the issue. */
  lemma {:induction false} MatchingUrlsMembers(labels: seq<Label>, commands: seq<Command>)
    ensures forall u :: u in MatchingUrls(labels, commands) <==>
      exists l, c :: l in labels && c in commands && c.name == l.name && c.url == u
    decreases |labels|
  {
    if labels != [] {
      var init := labels[..|labels| - 1];
      var last := labels[|labels| - 1];
      MatchingUrlsMembers(init, commands);
      UrlsForMembers(last.name, commands);
      assert labels == init + [last];
    }
  }

  /** The assignments one after the other, stopping at the first error. */
  function RunAll(cache: map<string, string>, asked: nat, urls: seq<string>, issue: SearchIssue, svc: Services): Step
  {
    if urls == [] then Step(None, cache, [], [], asked)
    else Extend(RunAll(cache, asked, urls[..|urls| - 1], issue, svc), urls[|urls| - 1], issue, svc)
  }

  /** A run `r` followed by the assignment for `url` unless it failed. */
  function Extend(r: Step, url: string, issue: SearchIssue, svc: Services): Step
  {
    if r.err.Some? then r
    else
      var s := Assign(r.cache, r.asked, url, issue, svc);
      Step(s.err, s.cache, r.fetched + s.fetched, r.calls + s.calls, s.asked)
  }

  /** After an error nothing more is attempted. */
  lemma {:induction false} RunAllStops(cache: map<string, string>, asked: nat, a: seq<string>, b: seq<string>, issue: SearchIssue, svc: Services)
    requires RunAll(cache, asked, a, issue, svc).err.Some?
    ensures RunAll(cache, asked, a + b, issue, svc) == RunAll(cache, asked, a, issue, svc)
    decreases |b|
  {
    if b != [] {
      assert (a + b)[..|a + b| - 1] == a + b[..|b| - 1];
      RunAllStops(cache, asked, a, b[..|b| - 1], issue, svc);
    } else {
      assert a + b == a;
    }
  }

  /** What one assignment does to the cache and the fetch log, in the terms a run needs. */
  lemma AssignGrows(cache: map<string, string>, asked: nat, url: string, issue: SearchIssue, svc: Services)
    ensures var r := Assign(cache, asked, url, issue, svc);
      (r.fetched == [] || (r.fetched == [url] && url !in cache))
      && (forall u :: u in cache ==> u in r.cache && r.cache[u] == cache[u])
      && (r.err.None? && r.fetched == [url] ==> url in r.cache)
  {
  }

  /** A run that got past its last URL is the run before it followed by one assignment. */
  lemma RunAllSnoc(cache: map<string, string>, asked: nat, done: seq<string>, url: string, issue: SearchIssue, svc: Services)
    requires RunAll(cache, asked, done, issue, svc).err.None?
    ensures var r := RunAll(cache, asked, done, issue, svc);
      var s := Assign(r.cache, r.asked, url, issue, svc);
      RunAll(cache, asked, done + [url], issue, svc) == Step(s.err, s.cache, r.fetched + s.fetched, r.calls + s.calls, s.asked)
  {
    var urls := done + [url];
    assert urls[..|urls| - 1] == done && urls[|urls| - 1] == url;
    var r := RunAll(cache, asked, done, issue, svc);
    assert RunAll(cache, asked, urls, issue, svc) == Extend(r, url, issue, svc);
    var s := Assign(r.cache, r.asked, url, issue, svc);
    assert Extend(r, url, issue, svc) == Step(s.err, s.cache, r.fetched + s.fetched, r.calls + s.calls, s.asked);
  }

  /**
   * Within one run each URL's node id is fetched at most once, and only for
   * URLs that were not cached; on success every fetched node id is cached.
   */
  lemma {:induction false} RunAllFetchesOnce(cache: map<string, string>, asked: nat, urls: seq<string>, issue: SearchIssue, svc: Services)
    ensures FetchedOnce(cache, RunAll(cache, asked, urls, issue, svc))
    decreases |urls|
  {
    if urls != [] {
      var init, url := urls[..|urls| - 1], urls[|urls| - 1];
      var r := RunAll(cache, asked, init, issue, svc);
      assert RunAll(cache, asked, urls, issue, svc) == Extend(r, url, issue, svc);
      RunAllFetchesOnce(cache, asked, init, issue, svc);
      if r.err.None? {
        var s := Assign(r.cache, r.asked, url, issue, svc);
        AssignGrows(r.cache, r.asked, url, issue, svc);
        FetchedOnceExtend(cache, r, s, url);
        assert Extend(r, url, issue, svc) == Step(s.err, s.cache, r.fetched + s.fetched, r.calls + s.calls, s.asked);
      } else {
        assert Extend(r, url, issue, svc) == r;
      }
    }
  }

  /**
   * A run asks at most one question per URL, each question after those
   * asked before it, and every mutation follows a question of its own.
   */
  lemma {:induction false} RunAllAsks(cache: map<string, string>, asked: nat, urls: seq<string>, issue: SearchIssue, svc: Services)
    ensures var r := RunAll(cache, asked, urls, issue, svc);
      asked <= r.asked <= asked + |urls| && |r.calls| <= r.asked - asked
    decreases |urls|
  {
    if urls != [] {
      var init, url := urls[..|urls| - 1], urls[|urls| - 1];
      var r := RunAll(cache, asked, init, issue, svc);
      assert RunAll(cache, asked, urls, issue, svc) == Extend(r, url, issue, svc);
      RunAllAsks(cache, asked, init, issue, svc);
      if r.err.None? {
        AssignAsksOnce(r.cache, r.asked, url, issue, svc);
      }
    }
  }

  /**
   * The same question asked twice reads two lines of input: for two labels
   * whose commands name the same project, the user can accept the first
   * question and decline the second, which ends the run as declined after
   * one mutation.
   */
  lemma RepeatedQuestionCanDecline(cache: map<string, string>, asked: nat, url: string, issue: SearchIssue, svc: Services)
    requires ProjectNumber(url).Ok? && url in cache
    requires svc.confirm(asked, url, issue.number) == Ok("y") && svc.assign(issue.nodeId, cache[url]).None?
    requires svc.confirm(asked + 1, url, issue.number) == Ok("n")
    ensures var r := RunAll(cache, asked, [url, url], issue, svc);
      r.err == Some(Declined) && r.calls == [(issue.nodeId, cache[url])] && r.asked == asked + 2
  {
    assert [url, url][..1] == [url] && [url][..0] == [];
    var r0 := RunAll(cache, asked, [], issue, svc);
    var r1 := RunAll(cache, asked, [url], issue, svc);
    assert r1 == Extend(r0, url, issue, svc);
    assert RunAll(cache, asked, [url, url], issue, svc) == Extend(r1, url, issue, svc);
  }

  /** The fetch log of `r` has no repeats nor cached URLs, the cache only grew, and on success all fetches are cached. */
  ghost predicate FetchedOnce(cache: map<string, string>, r: Step) {
    && (forall a, b :: 0 <= a < b < |r.fetched| ==> r.fetched[a] != r.fetched[b])
    && (forall u :: u in r.fetched ==> u !in cache)
    && (forall u :: u in cache ==> u in r.cache && r.cache[u] == cache[u])
    && (r.err.None? ==> forall u :: u in r.fetched ==> u in r.cache)
  }

  /** One assignment that fetches only an uncached URL and keeps the cache keeps FetchedOnce. */
  lemma FetchedOnceExtend(cache: map<string, string>, r: Step, s: Step, url: string)
    requires FetchedOnce(cache, r) && r.err.None?
    requires s.fetched == [] || (s.fetched == [url] && url !in r.cache)
    requires forall u :: u in r.cache ==> u in s.cache && s.cache[u] == r.cache[u]
    requires s.err.None? && s.fetched == [url] ==> url in s.cache
    ensures FetchedOnce(cache, Step(s.err, s.cache, r.fetched + s.fetched, r.calls + s.calls, s.asked))
  {
    var f := r.fetched + s.fetched;
    assert forall u :: u in f ==> u in r.fetched || u in s.fetched;
    forall a, b | 0 <= a < b < |f| ensures f[a] != f[b] {
      if b >= |r.fetched| {
        assert f[b] == url && url !in r.cache && f[a] in r.fetched;
      }
    }
  }

  // ---------------------------------------------------------------- pages of issues

  const PerPage := 100

  /** 2024-01-01T00:00:00Z in Unix seconds. */
  const CutDate := 1704067200

  /** The skip rule of line 104: created before the cut date, or by an author with some association. */
  predicate Skip(issue: SearchIssue) {
    issue.createdAt < CutDate || issue.authorAssociation != "NONE"
  }

  /** The position of the first issue that is not skipped, or |issues|. */
  function FirstEligible(issues: seq<SearchIssue>): (r: nat)
    ensures r <= |issues| && (forall m :: 0 <= m < r ==> Skip(issues[m]))
    ensures r < |issues| ==> !Skip(issues[r])
  {
    if issues == [] then 0
    else if !Skip(issues[0]) then 0
    else 1 + FirstEligible(issues[1..])
  }

  /** The inner `for _, issue := range issues` up to the first issue it does not skip. */
  method FindEligible(issues: seq<SearchIssue>) returns (k: nat)
    ensures k == FirstEligible(issues)
  {
    k := 0;
    while k < |issues| && Skip(issues[k])
      invariant k <= |issues| && FirstEligible(issues) == k + FirstEligible(issues[k..])
    {
      assert issues[k..][1..] == issues[k + 1..];
      k := k + 1;
    }
  }

  /** GetIssuesByFilter(filter, 100, page) for page 1, 2, …: `pages`, then empty pages. */
  type PageResult = Result<seq<SearchIssue>, string>

  function FetchPage(pages: seq<PageResult>, page: nat): PageResult {
    if 1 <= page <= |pages| then pages[page - 1] else Ok([])
  }

  /** The pager goes on past a page only when it was fetched, full, and without an issue to process. */
  predicate Continues(res: PageResult) {
    res.Ok? && |res.value| >= PerPage && FirstEligible(res.value) == |res.value|
  }

  /**
   * The page loop of one category from `page` on: the issue it processes, if
   * any, and the last page it fetched. It fetched every page from `page` to
   * `last` and went past each one but the last; it stopped at `last` on an
   * error, an empty page, an eligible issue or a page of fewer than 100.
   */
  function Scan(pages: seq<PageResult>, page: nat): (r: (Option<SearchIssue>, nat))
    requires 1 <= page
    ensures page <= r.1 && (forall p :: page <= p < r.1 ==> Continues(FetchPage(pages, p)))
    ensures !Continues(FetchPage(pages, r.1))
    ensures var res := FetchPage(pages, r.1);
      r.0.Some? <==> res.Ok? && res.value != [] && FirstEligible(res.value) < |res.value|
    ensures r.0.Some? ==> r.0.value == FetchPage(pages, r.1).value[FirstEligible(FetchPage(pages, r.1).value)]
    decreases |pages| + 1 - page
  {
    var res := FetchPage(pages, page);
    if res.Err? || res.value == [] then (None, page)
    else
      var k := FirstEligible(res.value);
      if k < |res.value| then (Some(res.value[k]), page)
      else if |res.value| < PerPage then (None, page)
      else Scan(pages, page + 1)
  }

  /** The page loop of lines 72-122. */
  method ScanCategory(pages: seq<PageResult>) returns (found: Option<SearchIssue>, last: nat)
    ensures (found, last) == Scan(pages, 1)
  {
    var page := 1;
    while true
      invariant 1 <= page <= |pages| + 1 && Scan(pages, page) == Scan(pages, 1)
      decreases |pages| + 1 - page
    {
      var res := FetchPage(pages, page);
      if res.Err? || |res.value| == 0 {
        return None, page;
      }
      var k := FindEligible(res.value);
      if k < |res.value| {
        return Some(res.value[k]), page;
      }
      if |res.value| < PerPage {
        return None, page;
      }
      page := page + 1;
    }
  }

  /** The first category whose page loop finds an issue, and that issue. */
  function FindTarget(categories: seq<string>, pagesOf: string -> seq<PageResult>): (r: Option<SearchIssue>)
    ensures r.None? <==> forall c :: c in categories ==> Scan(pagesOf(c), 1).0.None?
    ensures r.Some? ==> exists c :: c in categories && Scan(pagesOf(c), 1).0 == r
  {
    if categories == [] then None
    else
      match Scan(pagesOf(categories[0]), 1).0
      case Some(x) => Some(x)
      case None =>
        var r := FindTarget(categories[1..], pagesOf);
        assert forall c :: c in categories ==> c == categories[0] || c in categories[1..];
        r
  }

  /** How the script ends once the pages are searched: no issue, or the first issue processed (exit 0 or Fatalf). */
  datatype Outcome = NoIssue | Processed(number: int, err: Option<AssignError>)

  /** The process-wide state of the script: the node-id cache and what it has sent to GitHub. */
  class ProjectAssigner {
    /** projectNodeIds, keyed by project URL. */
    var projectNodeIds: map<string, string>
    /** The URLs whose node id was requested, in order. */
    var fetches: seq<string>
    /** The AssignProjectToIssue mutations sent, in order. */
    var mutations: seq<(string, string)>
    /** The confirmation questions asked, that is the lines read from standard input. */
    var prompts: nat

    constructor ()
      ensures projectNodeIds == map[] && fetches == [] && mutations == [] && prompts == 0
    {
      projectNodeIds := map[];
      fetches := [];
      mutations := [];
      prompts := 0;
    }

    /**
     * The fields are what the run `done` leaves, from the cache `cache0`, the
     * logs `fetches0` and `mutations0`, and `prompts0` questions asked before it.
     */
    ghost predicate Reflects(cache0: map<string, string>, fetches0: seq<string>, mutations0: seq<(string, string)>,
                             prompts0: nat, done: seq<string>, issue: SearchIssue, svc: Services)
      reads this
    {
      var r := RunAll(cache0, prompts0, done, issue, svc);
      projectNodeIds == r.cache && fetches == fetches0 + r.fetched && mutations == mutations0 + r.calls
      && prompts == r.asked
    }

    /** The run so far was `done`, without error. */
    ghost predicate Ran(cache0: map<string, string>, fetches0: seq<string>, mutations0: seq<(string, string)>,
                        prompts0: nat, done: seq<string>, issue: SearchIssue, svc: Services)
      reads this
    {
      RunAll(cache0, prompts0, done, issue, svc).err.None? && Reflects(cache0, fetches0, mutations0, prompts0, done, issue, svc)
    }

    /** assignProjectToIssue (lines 152-204). */
    method AssignProjectToIssue(issue: SearchIssue, projectUrl: string, svc: Services) returns (err: Option<AssignError>)
      modifies this
      ensures var r := Assign(old(projectNodeIds), old(prompts), projectUrl, issue, svc);
        err == r.err && projectNodeIds == r.cache
        && fetches == old(fetches) + r.fetched && mutations == old(mutations) + r.calls && prompts == r.asked
    {
      var number := ProjectNumber(projectUrl);
      if number.Err? {
        return Some(number.error);
      }
      var nodeId: string;
      if projectUrl in projectNodeIds {
        nodeId := projectNodeIds[projectUrl];
      } else {
        fetches := fetches + [projectUrl];
        var fetched := svc.fetchNodeId("grafana", number.value);
        if fetched.Err? {
          return Some(NodeIdError(fetched.error));
        }
        nodeId := fetched.value;
        projectNodeIds := projectNodeIds[projectUrl := nodeId];
      }
      var response := svc.confirm(prompts, projectUrl, issue.number);
      prompts := prompts + 1;
      if response.Err? {
        return Some(ReadError(response.error));
      }
      if response.value != "y" {
        return Some(Declined);
      }
      mutations := mutations + [(issue.nodeId, nodeId)];
      var sent := svc.assign(issue.nodeId, nodeId);
      if sent.Some? {
        return Some(AssignFailed(sent.value));
      }
      return None;
    }

    /** One assignment appended to a run that had no error so far. */
    method ApplyCommand(ghost cache0: map<string, string>, ghost fetches0: seq<string>, ghost mutations0: seq<(string, string)>,
                        ghost prompts0: nat, ghost done: seq<string>, issue: SearchIssue, url: string, svc: Services)
      returns (err: Option<AssignError>)
      requires Ran(cache0, fetches0, mutations0, prompts0, done, issue, svc)
      modifies this
      ensures err == RunAll(cache0, prompts0, done + [url], issue, svc).err
      ensures Reflects(cache0, fetches0, mutations0, prompts0, done + [url], issue, svc)
      ensures err.None? ==> Ran(cache0, fetches0, mutations0, prompts0, done + [url], issue, svc)
    {
      ghost var r := RunAll(cache0, prompts0, done, issue, svc);
      ghost var step := Assign(projectNodeIds, prompts, url, issue, svc);
      RunAllSnoc(cache0, prompts0, done, url, issue, svc);
      err := AssignProjectToIssue(issue, url, svc);
      Assoc(fetches0, r.fetched, step.fetched);
      Assoc(mutations0, r.calls, step.calls);
    }

    /**
     * executeCommandsForIssue (lines 126-148): for each label, each command of
     * that name, until the first error, which is returned wrapped.
     */
    method ExecuteCommandsForIssue(issue: SearchIssue, commands: seq<Command>, svc: Services) returns (err: Option<AssignError>)
      modifies this
      ensures var r := RunAll(old(projectNodeIds), old(prompts), MatchingUrls(issue.labels, commands), issue, svc);
        err == (if r.err.Some? then Some(Assigning(r.err.value)) else None)
        && projectNodeIds == r.cache && fetches == old(fetches) + r.fetched && mutations == old(mutations) + r.calls
        && prompts == r.asked
    {
      ghost var cache0, fetches0, mutations0, prompts0 := projectNodeIds, fetches, mutations, prompts;
      ghost var done: seq<string> := [];
      assert fetches0 + [] == fetches0 && mutations0 + [] == mutations0;
      var i := 0;
      while i < |issue.labels|
        invariant 0 <= i <= |issue.labels|
        invariant done == MatchingUrls(issue.labels[..i], commands)
        invariant Ran(cache0, fetches0, mutations0, prompts0, done, issue, svc)
      {
        var e := ExecuteCommandsForLabel(cache0, fetches0, mutations0, prompts0, done, issue, issue.labels[i].name, commands, svc);
        MatchingUrlsStep(issue.labels, commands, i);
        done := done + UrlsFor(issue.labels[i].name, commands);
        if e.Some? {
          assert commands[..|commands|] == commands;
          ErrorEndsRun(cache0, prompts0, issue.labels, commands, i, |commands|, done, issue, svc);
          return Some(Assigning(e.value));
        }
        i := i + 1;
      }
      assert issue.labels[..i] == issue.labels;
      return None;
    }

    /**
     * The inner loop of executeCommandsForIssue (lines 131-145): each command
     * named after the label, in order, until the first error. The state is
     * that of the whole label's run, since a run stops at its first error.
     */
    method ExecuteCommandsForLabel(ghost cache0: map<string, string>, ghost fetches0: seq<string>,
                                   ghost mutations0: seq<(string, string)>, ghost prompts0: nat, ghost before: seq<string>,
                                   issue: SearchIssue, name: string, commands: seq<Command>, svc: Services)
      returns (err: Option<AssignError>)
      requires Ran(cache0, fetches0, mutations0, prompts0, before, issue, svc)
      modifies this
      ensures err == RunAll(cache0, prompts0, before + UrlsFor(name, commands), issue, svc).err
      ensures Reflects(cache0, fetches0, mutations0, prompts0, before + UrlsFor(name, commands), issue, svc)
    {
      ghost var done := before;
      assert commands[..0] == [] && before + [] == before;
      var j := 0;
      while j < |commands|
        invariant 0 <= j <= |commands|
        invariant done == before + UrlsFor(name, commands[..j])
        invariant Ran(cache0, fetches0, mutations0, prompts0, done, issue, svc)
      {
        UrlsForStep(name, commands, j);
        if commands[j].name == name {
          var e := ApplyCommand(cache0, fetches0, mutations0, prompts0, done, issue, commands[j].url, svc);
          Assoc(before, UrlsFor(name, commands[..j]), [commands[j].url]);
          done := done + [commands[j].url];
          if e.Some? {
            UrlsForSplit(name, commands, j + 1);
            Assoc(before, UrlsFor(name, commands[..j + 1]), UrlsFor(name, commands[j + 1..]));
            RunAllStops(cache0, prompts0, done, UrlsFor(name, commands[j + 1..]), issue, svc);
            return e;
          }
        }
        j := j + 1;
      }
      assert commands[..j] == commands;
      return None;
    }

    /**
     * The loop of lines 70-123 and what follows it: the first issue the page
     * loops find, in category order, is processed and the script ends.
     */
    method AssignFirstEligible(categories: seq<string>, pagesOf: string -> seq<PageResult>,
                               commands: seq<Command>, svc: Services) returns (o: Outcome)
      modifies this
      ensures var t := FindTarget(categories, pagesOf);
        if t.None? then o == NoIssue && projectNodeIds == old(projectNodeIds) && fetches == old(fetches) && mutations == old(mutations)
          && prompts == old(prompts)
        else
          var r := RunAll(old(projectNodeIds), old(prompts), MatchingUrls(t.value.labels, commands), t.value, svc);
          o == Processed(t.value.number, if r.err.Some? then Some(Assigning(r.err.value)) else None)
          && projectNodeIds == r.cache && fetches == old(fetches) + r.fetched && mutations == old(mutations) + r.calls
          && prompts == r.asked
    {
      var i := 0;
      while i < |categories|
        invariant 0 <= i <= |categories| && FindTarget(categories, pagesOf) == FindTarget(categories[i..], pagesOf)
        invariant projectNodeIds == old(projectNodeIds) && fetches == old(fetches) && mutations == old(mutations)
        invariant prompts == old(prompts)
      {
        var found, _ := ScanCategory(pagesOf(categories[i]));
        if found.Some? {
          var err := ExecuteCommandsForIssue(found.value, commands, svc);
          return Processed(found.value.number, err);
        }
        assert categories[i..][1..] == categories[i + 1..];
        i := i + 1;
      }
      return NoIssue;
    }
  }

  /** The URLs of the first `i + 1` labels are those of the first `i` and then those of label `i`. */
  lemma MatchingUrlsStep(labels: seq<Label>, commands: seq<Command>, i: nat)
    requires i < |labels|
    ensures MatchingUrls(labels[..i + 1], commands) == MatchingUrls(labels[..i], commands) + UrlsFor(labels[i].name, commands)
  {
    assert labels[..i + 1][..i] == labels[..i];
  }

  lemma UrlsForStep(name: string, commands: seq<Command>, j: nat)
    requires j < |commands|
    ensures UrlsFor(name, commands[..j + 1])
      == UrlsFor(name, commands[..j]) + (if commands[j].name == name then [commands[j].url] else [])
  {
    assert commands[..j + 1][..j] == commands[..j];
  }

  /** An error after command `j` of label `i` is where the whole run ends. */
  lemma ErrorEndsRun(cache: map<string, string>, asked: nat, labels: seq<Label>, commands: seq<Command>, i: nat, j: nat,
                     done: seq<string>, issue: SearchIssue, svc: Services)
    requires i < |labels| && j <= |commands|
    requires done == MatchingUrls(labels[..i], commands) + UrlsFor(labels[i].name, commands[..j])
    requires RunAll(cache, asked, done, issue, svc).err.Some?
    ensures RunAll(cache, asked, MatchingUrls(labels, commands), issue, svc) == RunAll(cache, asked, done, issue, svc)
  {
    var rest := AllAfter(labels, commands, i, j);
    RunAllStops(cache, asked, done, rest, issue, svc);
  }

  /** The URLs of one label and then of the rest. */
  lemma MatchingUrlsCons(l: Label, rest: seq<Label>, commands: seq<Command>)
    ensures MatchingUrls([l] + rest, commands) == UrlsFor(l.name, commands) + MatchingUrls(rest, commands)
  {
    MatchingUrlsAppend([l], rest, commands);
    assert [l][..0] == [];
  }

  /** The URLs of the labels before `i`, of label `i`, and of the labels after it. */
  lemma MatchingUrlsSplit(labels: seq<Label>, commands: seq<Command>, i: nat)
    requires i < |labels|
    ensures MatchingUrls(labels, commands)
      == MatchingUrls(labels[..i], commands) + (UrlsFor(labels[i].name, commands) + MatchingUrls(labels[i + 1..], commands))
  {
    assert labels == labels[..i] + ([labels[i]] + labels[i + 1..]);
    MatchingUrlsAppend(labels[..i], [labels[i]] + labels[i + 1..], commands);
    MatchingUrlsCons(labels[i], labels[i + 1..], commands);
  }

  /** The URLs of the commands before `j` and of those from `j` on. */
  lemma UrlsForSplit(name: string, commands: seq<Command>, j: nat)
    requires j <= |commands|
    ensures UrlsFor(name, commands) == UrlsFor(name, commands[..j]) + UrlsFor(name, commands[j..])
  {
    assert commands[..j] + commands[j..] == commands;
    UrlsForAppend(name, commands[..j], commands[j..]);
  }

  /** The URLs done after command `j` of label `i` come first among all of them. */
  lemma AllAfter(labels: seq<Label>, commands: seq<Command>, i: nat, j: nat) returns (rest: seq<string>)
    requires i < |labels| && j <= |commands|
    ensures MatchingUrls(labels, commands)
      == MatchingUrls(labels[..i], commands) + UrlsFor(labels[i].name, commands[..j]) + rest
  {
    MatchingUrlsSplit(labels, commands, i);
    UrlsForSplit(labels[i].name, commands, j);
    rest := UrlsFor(labels[i].name, commands[j..]) + MatchingUrls(labels[i + 1..], commands);
    Regroup(MatchingUrls(labels[..i], commands), UrlsFor(labels[i].name, commands[..j]),
            UrlsFor(labels[i].name, commands[j..]), MatchingUrls(labels[i + 1..], commands));
  }
}
