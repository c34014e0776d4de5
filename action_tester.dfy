/**
 * pkg/cmd/action-tester/action-tester.go: copies one grafana/grafana issue
 * into a test repository, keeping a local cache of fetched issues. The model
 * covers the flag checks, the `org/repo` format, and the cache: one file per
 * issue, named by its decimal number plus ".json", in one directory.
 *
 * The file system is a value: the directories that exist, the file contents
 * by path, and the paths whose creation or writing fails. JSON encoding and
 * decoding of an issue are parameters.
 */
module ActionTester {
  import opened Common
  import opened Strings

  // ---------------------------------------------------------------- validateFlags

  datatype FlagError = IssueIdRequired | RepoRequired | RepoFormatInvalid | TokenRequired

  /** A character of `[a-zA-Z0-9\-]`. */
  predicate IsRepoChar(c: char) {
    'a' <= c <= 'z' || 'A' <= c <= 'Z' || '0' <= c <= '9' || c == '-'
  }

  /** `^[a-zA-Z0-9\-]+/[a-zA-Z0-9\-]+$`, stated directly: a non-empty org, one '/', a non-empty repo. */
  predicate IsOrgRepo(s: string) {
    exists k :: 0 < k < |s| - 1 && s[k] == '/' &&
      (forall i :: 0 <= i < |s| && i != k ==> IsRepoChar(s[i]))
  }

  /** The states of the pattern's automaton. */
  datatype MatchState = Start | InOrg | AfterSlash | InRepo | Dead

  function Next(q: MatchState, c: char): MatchState {
    match q
    case Start => if IsRepoChar(c) then InOrg else Dead
    case InOrg => if IsRepoChar(c) then InOrg else if c == '/' then AfterSlash else Dead
    case AfterSlash => if IsRepoChar(c) then InRepo else Dead
    case InRepo => if IsRepoChar(c) then InRepo else Dead
    case Dead => Dead
  }

  function Run(q: MatchState, s: string): MatchState
    decreases |s|
  {
    if s == [] then q else Run(Next(q, s[0]), s[1..])
  }

  /** re.MatchString for the repo pattern: the automaton ends in the repo part. */
  predicate MatchesRepoPattern(s: string) {
    Run(Start, s) == InRepo
  }

  lemma {:induction false} RunDead(s: string)
    ensures Run(Dead, s) == Dead
    decreases |s|
  {
    if s != [] {
      RunDead(s[1..]);
    }
  }

  /** In the repo part the automaton stays there exactly while it reads repo characters. */
  lemma {:induction false} RunInRepo(s: string)
    ensures Run(InRepo, s) == InRepo <==> forall i :: 0 <= i < |s| ==> IsRepoChar(s[i])
    decreases |s|
  {
    if s != [] {
      if IsRepoChar(s[0]) {
        RunInRepo(s[1..]);
        assert forall i :: 1 <= i < |s| ==> s[i] == s[1..][i - 1];
      } else {
        RunDead(s[1..]);
      }
    }
  }

  /** After the slash, the automaton accepts exactly a non-empty run of repo characters. */
  lemma RunAfterSlash(s: string)
    ensures Run(AfterSlash, s) == InRepo <==> |s| > 0 && forall i :: 0 <= i < |s| ==> IsRepoChar(s[i])
  {
    if s != [] {
      if IsRepoChar(s[0]) {
        RunInRepo(s[1..]);
        assert forall i :: 1 <= i < |s| ==> s[i] == s[1..][i - 1];
      } else {
        RunDead(s[1..]);
      }
    }
  }

  /** In the org part, the automaton accepts exactly repo characters, one '/', then a non-empty run of repo characters. */
  lemma {:induction false} RunInOrg(s: string)
    ensures Run(InOrg, s) == InRepo <==>
      exists k :: 0 <= k < |s| - 1 && s[k] == '/' && forall i :: 0 <= i < |s| && i != k ==> IsRepoChar(s[i])
    decreases |s|
  {
    if s != [] {
      var t := s[1..];
      if IsRepoChar(s[0]) {
        RunInOrg(t);
        if Run(InOrg, s) == InRepo {
          var k :| 0 <= k < |t| - 1 && t[k] == '/' && forall i :: 0 <= i < |t| && i != k ==> IsRepoChar(t[i]);
          assert s[k + 1] == '/';
          assert forall i :: 0 <= i < |s| && i != k + 1 ==> IsRepoChar(s[i]) by {
            forall i | 0 <= i < |s| && i != k + 1 ensures IsRepoChar(s[i]) {
              if i > 0 { assert s[i] == t[i - 1]; }
            }
          }
        }
        if exists k :: 0 <= k < |s| - 1 && s[k] == '/' && forall i :: 0 <= i < |s| && i != k ==> IsRepoChar(s[i]) {
          var k :| 0 <= k < |s| - 1 && s[k] == '/' && forall i :: 0 <= i < |s| && i != k ==> IsRepoChar(s[i]);
          assert k > 0;
          assert t[k - 1] == '/';
          assert forall i :: 0 <= i < |t| && i != k - 1 ==> IsRepoChar(t[i]) by {
            forall i | 0 <= i < |t| && i != k - 1 ensures IsRepoChar(t[i]) {
              assert t[i] == s[i + 1];
            }
          }
        }
      } else if s[0] == '/' {
        RunAfterSlash(t);
        if Run(InOrg, s) == InRepo {
          assert forall i :: 0 <= i < |s| && i != 0 ==> IsRepoChar(s[i]) by {
            forall i | 0 <= i < |s| && i != 0 ensures IsRepoChar(s[i]) { assert s[i] == t[i - 1]; }
          }
        }
        if exists k :: 0 <= k < |s| - 1 && s[k] == '/' && forall i :: 0 <= i < |s| && i != k ==> IsRepoChar(s[i]) {
          var k :| 0 <= k < |s| - 1 && s[k] == '/' && forall i :: 0 <= i < |s| && i != k ==> IsRepoChar(s[i]);
          assert k == 0;
          assert forall i :: 0 <= i < |t| ==> IsRepoChar(t[i]) by {
            forall i | 0 <= i < |t| ensures IsRepoChar(t[i]) { assert t[i] == s[i + 1]; }
          }
        }
      } else {
        RunDead(t);
        forall k | 0 <= k < |s| - 1 && s[k] == '/'
          ensures k != 0 && !IsRepoChar(s[0])
        {
        }
      }
    }
  }

  /** The automaton accepts exactly the `org/repo` strings. */
  lemma MatchesRepoPatternIff(s: string)
    ensures MatchesRepoPattern(s) <==> IsOrgRepo(s)
  {
    if s == [] {
    } else if IsRepoChar(s[0]) {
      var t := s[1..];
      RunInOrg(t);
      if MatchesRepoPattern(s) {
        var k :| 0 <= k < |t| - 1 && t[k] == '/' && forall i :: 0 <= i < |t| && i != k ==> IsRepoChar(t[i]);
        assert s[k + 1] == '/';
        assert forall i :: 0 <= i < |s| && i != k + 1 ==> IsRepoChar(s[i]) by {
          forall i | 0 <= i < |s| && i != k + 1 ensures IsRepoChar(s[i]) {
            if i > 0 { assert s[i] == t[i - 1]; }
          }
        }
      }
      if IsOrgRepo(s) {
        var k :| 0 < k < |s| - 1 && s[k] == '/' && forall i :: 0 <= i < |s| && i != k ==> IsRepoChar(s[i]);
        assert t[k - 1] == '/';
        assert forall i :: 0 <= i < |t| && i != k - 1 ==> IsRepoChar(t[i]) by {
          forall i | 0 <= i < |t| && i != k - 1 ensures IsRepoChar(t[i]) { assert t[i] == s[i + 1]; }
        }
      }
    } else {
      RunDead(s[1..]);
      forall k | 0 < k < |s| - 1 && s[k] == '/'
        ensures !IsRepoChar(s[0])
      {
      }
    }
  }

  /**
   * validateFlags: the issue id, then the repo's presence, then its format,
   * then the GitHub token; the first failing check is the error.
   */
  function ValidateFlags(issueId: int, repo: string, githubToken: string): (r: Option<FlagError>)
    ensures r == None <==> issueId != 0 && IsOrgRepo(repo) && githubToken != ""
    ensures r == Some(IssueIdRequired) <==> issueId == 0
    ensures r == Some(RepoRequired) <==> issueId != 0 && repo == ""
    ensures r == Some(RepoFormatInvalid) <==> issueId != 0 && repo != "" && !IsOrgRepo(repo)
  {
    MatchesRepoPatternIff(repo);
    if issueId == 0 then Some(IssueIdRequired)
    else if repo == "" then Some(RepoRequired)
    else if !MatchesRepoPattern(repo) then Some(RepoFormatInvalid)
    else if githubToken == "" then Some(TokenRequired)
    else None
  }

  /** The default repo passes the format check. */
  lemma DefaultRepoValid()
    ensures IsOrgRepo("grafana/grafana-auto-triager-tests")
  {
    var s := "grafana/grafana-auto-triager-tests";
    assert s[7] == '/';
    assert forall i :: 0 <= i < |s| && i != 7 ==> IsRepoChar(s[i]);
  }

  // ---------------------------------------------------------------- the cache

  /** The cache file name of an issue number. */
  function CacheKey(issueNumber: int): string {
    Itoa(issueNumber) + ".json"
  }

  /** path.Join(cacheDir, key) for a cache directory and a key without '/'. */
  function CachePath(cacheDir: string, issueNumber: int): string {
    cacheDir + "/" + CacheKey(issueNumber)
  }

  /** Distinct issue numbers have distinct cache files. */
  lemma CachePathInjective(cacheDir: string, a: int, b: int)
    requires MinInt64 <= a <= MaxInt64 && MinInt64 <= b <= MaxInt64
    requires CachePath(cacheDir, a) == CachePath(cacheDir, b)
    ensures a == b
  {
    var pa, pb := CachePath(cacheDir, a), CachePath(cacheDir, b);
    var n := |cacheDir| + 1;
    assert |Itoa(a)| == |Itoa(b)|;
    assert Itoa(a) == pa[n..|pa| - 5];
    assert Itoa(b) == pb[n..|pb| - 5];
    ItoaInjective(a, b);
  }

  datatype FileSystem = FileSystem(dirs: set<string>, files: map<string, string>, failing: set<string>)

  datatype CacheError = NotFound(issueId: int) | DecodeFailed | MkdirFailed | WriteFailed

  /**
   * saveIssueToCache: create the cache directory when it does not exist,
   * then write the issue's JSON under its number.
   */
  function SaveIssueToCache(fs: FileSystem, cacheDir: string, issue: Issue, marshal: Issue -> string): (FileSystem, Option<CacheError>)
  {
    var path := CachePath(cacheDir, issue.number);
    if cacheDir !in fs.dirs && cacheDir in fs.failing then (fs, Some(MkdirFailed))
    else
      var fs1 := fs.(dirs := fs.dirs + {cacheDir});
      if path in fs.failing then (fs1, Some(WriteFailed))
      else (fs1.(files := fs1.files[path := marshal(issue)]), None)
  }

  /** getIssueFromCache: the decoded cache file of the number, or "not found" when there is none. */
  function GetIssueFromCache(fs: FileSystem, cacheDir: string, issueId: int, unmarshal: string -> Option<Issue>): (r: Result<Issue, CacheError>)
    ensures CachePath(cacheDir, issueId) !in fs.files <==> r == Err(NotFound(issueId))
  {
    var path := CachePath(cacheDir, issueId);
    if path !in fs.files then Err(NotFound(issueId))
    else match unmarshal(fs.files[path])
      case None => Err(DecodeFailed)
      case Some(issue) => Ok(issue)
  }

  /** A lookup after a successful save returns the saved issue. */
  lemma LookupAfterSave(fs: FileSystem, cacheDir: string, issue: Issue, marshal: Issue -> string, unmarshal: string -> Option<Issue>)
    requires unmarshal(marshal(issue)) == Some(issue)
    requires SaveIssueToCache(fs, cacheDir, issue, marshal).1 == None
    ensures GetIssueFromCache(SaveIssueToCache(fs, cacheDir, issue, marshal).0, cacheDir, issue.number, unmarshal) == Ok(issue)
  {
  }

  /** A save leaves the lookup of every other issue number as it was. */
  lemma SaveKeepsOtherIssues(fs: FileSystem, cacheDir: string, issue: Issue, other: int, marshal: Issue -> string, unmarshal: string -> Option<Issue>)
    requires MinInt64 <= issue.number <= MaxInt64 && MinInt64 <= other <= MaxInt64 && other != issue.number
    ensures GetIssueFromCache(SaveIssueToCache(fs, cacheDir, issue, marshal).0, cacheDir, other, unmarshal) ==
            GetIssueFromCache(fs, cacheDir, other, unmarshal)
  {
    if CachePath(cacheDir, other) == CachePath(cacheDir, issue.number) {
      CachePathInjective(cacheDir, other, issue.number);
    }
  }

  /**
   * The issue main publishes: the cached one when the lookup succeeds,
   * otherwise the fetched one, which is then saved (a failed save is only
   * printed). A failed fetch ends the process.
   */
  function ResolveIssue(fs: FileSystem, cacheDir: string, issueId: int, fetch: int -> Result<Issue, string>,
                        marshal: Issue -> string, unmarshal: string -> Option<Issue>): (FileSystem, Result<Issue, string>)
  {
    match GetIssueFromCache(fs, cacheDir, issueId, unmarshal)
    case Ok(cached) => (fs, Ok(cached))
    case Err(_) =>
      match fetch(issueId)
      case Err(e) => (fs, Err(e))
      case Ok(fetched) => (SaveIssueToCache(fs, cacheDir, fetched, marshal).0, Ok(fetched))
  }

  /**
   * A second run for the same issue, after a first run fetched and cached it,
   * publishes the same issue from the cache whatever the fetcher would now do.
   */
  lemma SecondRunFromCache(fs: FileSystem, cacheDir: string, issueId: int, fetch: int -> Result<Issue, string>, fetch2: int -> Result<Issue, string>,
                           marshal: Issue -> string, unmarshal: string -> Option<Issue>)
    requires GetIssueFromCache(fs, cacheDir, issueId, unmarshal).Err? && fetch(issueId).Ok?
    requires fetch(issueId).value.number == issueId
    requires unmarshal(marshal(fetch(issueId).value)) == Some(fetch(issueId).value)
    requires SaveIssueToCache(fs, cacheDir, fetch(issueId).value, marshal).1 == None
    ensures var (fs1, first) := ResolveIssue(fs, cacheDir, issueId, fetch, marshal, unmarshal);
      first == Ok(fetch(issueId).value) && ResolveIssue(fs1, cacheDir, issueId, fetch2, marshal, unmarshal) == (fs1, first)
  {
    LookupAfterSave(fs, cacheDir, fetch(issueId).value, marshal, unmarshal);
  }
}
