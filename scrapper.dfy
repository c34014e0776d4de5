/**
 * pkg/cmd/scrapper/scrapper.go: copies the closed issues of grafana/grafana,
 * page by page, into the sqlite table `issues`, and remembers in `.page.txt`
 * the page to start from next time.
 *
 * The remote side is a finite sequence of pages, each either a fetched body
 * with the issues it decodes to or a failure (request, status, read or
 * decode error, all of which end the process). Pages outside the sequence
 * come back empty. The table is a map from issue number to row; the page
 * file is None when it cannot be read.
 */
module Scrapper {
  import opened Common
  import opened Strings

  /** One row of `issues`. */
  datatype Row = Row(title: string, description: string, processed: bool, labels: string, raw: string)

  /** What the request for one page gives. */
  datatype Page = Fetched(body: string, issues: seq<Issue>) | Failed(reason: string)

  /** How the scrape ends: at the first empty page, or by log.Fatalf while on `page`. */
  datatype Outcome = Finished(lastPage: int) | Fatal(page: int)

  // ---------------------------------------------------------------- .page.txt

  /** setStartPage: the file text `fmt.Sprintf("%d\n", page)`. */
  function PageText(page: int): string {
    Itoa(page) + "\n"
  }

  /**
   * getStartPage: strconv.Atoi of the file text with '\n' trimmed at both
   * ends; an unreadable file reads as empty text. Atoi's error is only
   * printed, so its value is used: 0 on a syntax error, the nearer int64
   * bound when out of range.
   */
  function StartPage(file: Option<string>): (page: int)
    ensures file.None? ==> page == 0
    ensures file.Some? && Atoi(Trim(file.value, '\n')).1 == Some(SyntaxError) ==> page == 0
    ensures MinInt64 <= page <= MaxInt64
  {
    var text := if file.Some? then file.value else "";
    Atoi(Trim(text, '\n')).0
  }

  lemma TrimNewline(n: int)
    ensures Trim(PageText(n), '\n') == Itoa(n)
  {
    var d := Itoa(n);
    var t := PageText(n);
    assert t[0] == d[0] != '\n';
    assert TrimLeft(t, '\n') == t;
    assert t[..|t| - 1] == d;
    assert TrimRight(t, '\n') == TrimRight(d, '\n');
    assert d[|d| - 1] != '\n';
  }

  /** What setStartPage writes, getStartPage reads back. */
  lemma StartPageRoundTrip(page: int)
    requires MinInt64 <= page <= MaxInt64
    ensures StartPage(Some(PageText(page))) == page
  {
    TrimNewline(page);
    AtoiItoa(page);
  }

  /** A missing page file and one of blank lines both start the scrape at page 0. */
  lemma StartPageBlank(text: string)
    requires forall i :: 0 <= i < |text| ==> text[i] == '\n'
    ensures StartPage(Some(text)) == 0
    ensures StartPage(None) == 0
  {
    BlankTrims(text);
  }

  lemma {:induction false} BlankTrims(text: string)
    requires forall i :: 0 <= i < |text| ==> text[i] == '\n'
    ensures TrimLeft(text, '\n') == ""
    decreases |text|
  {
    if text != [] {
      BlankTrims(text[1..]);
    }
  }

  // ---------------------------------------------------------------- saveIssue

  /** The columns the INSERT statement names. */
  const Columns: seq<string> := ["id", "title", "description", "processed", "labels", "raw"]

  /** The `?` placeholders of the statement as written. */
  const PlaceholdersAsWritten: nat := 5

  /** One placeholder per column. */
  const PlaceholdersIntended: nat := |Columns|

  /** The row a save writes: unprocessed, labels as JSON, the whole page body as raw. */
  function RowFor(issue: Issue, labelsJson: string, body: string): Row {
    Row(issue.title, issue.body, false, labelsJson, body)
  }

  /**
   * db.Exec of `INSERT OR REPLACE INTO issues (<Columns>) VALUES (<placeholders>)`
   * with the six values number, title, description, 0, labels, raw: refused
   * (the error text is approximate) unless there is one placeholder per
   * column and per value, otherwise the row keyed by the number is inserted
   * or replaced.
   */
  function SaveIssue(rows: map<int, Row>, placeholders: nat, issue: Issue, labelsJson: string, body: string): Result<map<int, Row>, string>
  {
    if placeholders != |Columns| then Err(Itoa(placeholders) + " values for 6 columns")
    else Ok(rows[issue.number := RowFor(issue, labelsJson, body)])
  }

  /** The statement as written refuses every issue. */
  lemma SaveIssueAsWrittenFails(rows: map<int, Row>, issue: Issue, labelsJson: string, body: string)
    ensures SaveIssue(rows, PlaceholdersAsWritten, issue, labelsJson, body).Err?
  {
  }

  /**
   * With one placeholder per column the save is an insert-or-replace: the
   * number's row is the new one, unprocessed even when it was processed
   * before, and no other row changes.
   */
  lemma SaveIssueReplaces(rows: map<int, Row>, issue: Issue, labelsJson: string, body: string)
    ensures var r := SaveIssue(rows, PlaceholdersIntended, issue, labelsJson, body);
      r.Ok? && r.value.Keys == rows.Keys + {issue.number} &&
      r.value[issue.number] == RowFor(issue, labelsJson, body) && !r.value[issue.number].processed &&
      forall k :: k in rows && k != issue.number ==> r.value[k] == rows[k]
  {
  }

  // ---------------------------------------------------------------- one page

  /**
   * The issues of one page, in order: pull requests are skipped, every other
   * issue is saved with the page body as raw; the first failed save ends the
   * process (true = no save failed).
   */
  function SavePage(rows: map<int, Row>, issues: seq<Issue>, body: string, placeholders: nat, marshal: seq<Label> -> string): (map<int, Row>, bool)
  {
    if issues == [] then (rows, true)
    else
      var last := issues[|issues| - 1];
      var (saved, ok) := SavePage(rows, issues[..|issues| - 1], body, placeholders, marshal);
      if !ok || last.pullRequestUrl != "" then (saved, ok)
      else match SaveIssue(saved, placeholders, last, marshal(last.labels), body)
        case Err(_) => (saved, false)
        case Ok(next) => (next, true)
  }

  /** The issue numbers a page saves: those of its issues that are not pull requests. */
  function IssueNumbers(issues: seq<Issue>): set<int> {
    set i | 0 <= i < |issues| && issues[i].pullRequestUrl == "" :: issues[i].number
  }

  /** `issues[i]` is the last non-pull-request issue of its number. */
  predicate LastOfNumber(issues: seq<Issue>, i: int)
    requires 0 <= i < |issues|
  {
    issues[i].pullRequestUrl == "" &&
    forall j :: i < j < |issues| && issues[j].pullRequestUrl == "" ==> issues[j].number != issues[i].number
  }

  /** With the intended statement no save on a page fails. */
  lemma {:induction false} SavePageIntendedOk(rows: map<int, Row>, issues: seq<Issue>, body: string, marshal: seq<Label> -> string)
    ensures SavePage(rows, issues, body, PlaceholdersIntended, marshal).1
    decreases |issues|
  {
    if issues != [] {
      SavePageIntendedOk(rows, issues[..|issues| - 1], body, marshal);
    }
  }

  /** The last issue of a page, unless it is a pull request, overwrites its number's row. */
  lemma SavePageIntendedStep(rows: map<int, Row>, issues: seq<Issue>, body: string, marshal: seq<Label> -> string)
    requires issues != []
    ensures var last := issues[|issues| - 1];
      var before := SavePage(rows, issues[..|issues| - 1], body, PlaceholdersIntended, marshal).0;
      SavePage(rows, issues, body, PlaceholdersIntended, marshal).0 ==
        if last.pullRequestUrl != "" then before else before[last.number := RowFor(last, marshal(last.labels), body)]
  {
    SavePageIntendedOk(rows, issues[..|issues| - 1], body, marshal);
  }

  lemma IssueNumbersStep(issues: seq<Issue>)
    requires issues != []
    ensures var last := issues[|issues| - 1];
      IssueNumbers(issues) == IssueNumbers(issues[..|issues| - 1]) + (if last.pullRequestUrl == "" then {last.number} else {})
  {
    var init := issues[..|issues| - 1];
    assert forall i :: 0 <= i < |init| ==> issues[i] == init[i];
  }

  /**
   * With the intended statement a page saves every issue that is not a pull
   * request and nothing else, and every other row is as before.
   */
  lemma {:induction false} SavePageIntendedKeys(rows: map<int, Row>, issues: seq<Issue>, body: string, marshal: seq<Label> -> string)
    ensures var saved := SavePage(rows, issues, body, PlaceholdersIntended, marshal).0;
      saved.Keys == rows.Keys + IssueNumbers(issues) &&
      forall k :: k in rows && k !in IssueNumbers(issues) ==> saved[k] == rows[k]
    decreases |issues|
  {
    if issues != [] {
      SavePageIntendedKeys(rows, issues[..|issues| - 1], body, marshal);
      SavePageIntendedStep(rows, issues, body, marshal);
      IssueNumbersStep(issues);
    }
  }

  /** Each saved number holds the row of the last issue on the page with that number. */
  lemma {:induction false} SavePageIntendedRows(rows: map<int, Row>, issues: seq<Issue>, body: string, marshal: seq<Label> -> string)
    ensures var saved := SavePage(rows, issues, body, PlaceholdersIntended, marshal).0;
      forall i :: 0 <= i < |issues| && LastOfNumber(issues, i) ==>
        issues[i].number in saved && saved[issues[i].number] == RowFor(issues[i], marshal(issues[i].labels), body)
    decreases |issues|
  {
    if issues != [] {
      var init := issues[..|issues| - 1];
      SavePageIntendedRows(rows, init, body, marshal);
      SavePageIntendedStep(rows, issues, body, marshal);
      forall i | 0 <= i < |init| && LastOfNumber(issues, i)
        ensures LastOfNumber(init, i)
      {
      }
    }
  }

  /** With the statement as written a page changes no row, and fails exactly when it holds an issue that is not a pull request. */
  lemma {:induction false} SavePageAsWritten(rows: map<int, Row>, issues: seq<Issue>, body: string, marshal: seq<Label> -> string)
    ensures SavePage(rows, issues, body, PlaceholdersAsWritten, marshal) == (rows, IssueNumbers(issues) == {})
    decreases |issues|
  {
    if issues != [] {
      var init := issues[..|issues| - 1];
      SavePageAsWritten(rows, init, body, marshal);
      IssueNumbersStep(issues);
    }
  }

  // ---------------------------------------------------------------- the page loop

  function PageAt(pages: seq<Page>, page: int): Page {
    if 0 <= page < |pages| then pages[page] else Fetched("[]", [])
  }

  /** A page that lets the loop go on: fetched and not empty. */
  predicate Continues(pages: seq<Page>, page: int) {
    PageAt(pages, page).Fetched? && PageAt(pages, page).issues != []
  }

  /**
   * scrapeIssues from `page` on: the rows, the page file and the outcome.
   * A failed page is fatal; an empty page ends the loop; otherwise the page
   * is saved and, unless a save was fatal, `page + 1` is written to the page
   * file before the next page.
   */
  function Scrape(rows: map<int, Row>, file: Option<string>, pages: seq<Page>, page: int, placeholders: nat, marshal: seq<Label> -> string): (map<int, Row>, Option<string>, Outcome)
    decreases |pages| - page
  {
    var p := PageAt(pages, page);
    if p.Failed? then (rows, file, Fatal(page))
    else if p.issues == [] then (rows, file, Finished(page))
    else
      var (saved, ok) := SavePage(rows, p.issues, p.body, placeholders, marshal);
      if !ok then (saved, file, Fatal(page))
      else Scrape(saved, Some(PageText(page + 1)), pages, page + 1, placeholders, marshal)
  }

  /**
   * A finished scrape stopped at the first empty page after `start`; every
   * page before it was fetched and not empty, and the page file then names
   * the page it stopped at (it is untouched when that is the first page).
   */
  lemma {:induction false} ScrapeStopsAtEmptyPage(rows: map<int, Row>, file: Option<string>, pages: seq<Page>, start: int, placeholders: nat, marshal: seq<Label> -> string)
    ensures var (_, file', outcome) := Scrape(rows, file, pages, start, placeholders, marshal);
      outcome.Finished? ==>
        start <= outcome.lastPage && PageAt(pages, outcome.lastPage).Fetched? && PageAt(pages, outcome.lastPage).issues == [] &&
        (forall q :: start <= q < outcome.lastPage ==> Continues(pages, q)) &&
        file' == (if outcome.lastPage == start then file else Some(PageText(outcome.lastPage)))
    decreases |pages| - start
  {
    var p := PageAt(pages, start);
    if p.Fetched? && p.issues != [] {
      var (saved, ok) := SavePage(rows, p.issues, p.body, placeholders, marshal);
      if ok {
        ScrapeStopsAtEmptyPage(saved, Some(PageText(start + 1)), pages, start + 1, placeholders, marshal);
      }
    }
  }

  /** A fatal end with the intended statement comes from a page that could not be fetched. */
  lemma {:induction false} ScrapeIntendedFatal(rows: map<int, Row>, file: Option<string>, pages: seq<Page>, start: int, marshal: seq<Label> -> string)
    ensures var (_, _, outcome) := Scrape(rows, file, pages, start, PlaceholdersIntended, marshal);
      outcome.Fatal? ==> start <= outcome.page && PageAt(pages, outcome.page).Failed?
    decreases |pages| - start
  {
    var p := PageAt(pages, start);
    if p.Fetched? && p.issues != [] {
      SavePageIntendedOk(rows, p.issues, p.body, marshal);
      var (saved, _) := SavePage(rows, p.issues, p.body, PlaceholdersIntended, marshal);
      ScrapeIntendedFatal(saved, Some(PageText(start + 1)), pages, start + 1, marshal);
    }
  }

  /** Every row a scrape adds is keyed by the number of an issue, not a pull request, of a page it read. */
  lemma {:induction false} ScrapeSavesOnlyIssues(rows: map<int, Row>, file: Option<string>, pages: seq<Page>, start: int, marshal: seq<Label> -> string)
    ensures var (rows', _, _) := Scrape(rows, file, pages, start, PlaceholdersIntended, marshal);
      forall k :: k in rows' ==> k in rows || exists q :: start <= q < |pages| && pages[q].Fetched? && k in IssueNumbers(pages[q].issues)
    decreases |pages| - start
  {
    var p := PageAt(pages, start);
    if p.Fetched? && p.issues != [] {
      SavePageIntendedOk(rows, p.issues, p.body, marshal);
      SavePageIntendedKeys(rows, p.issues, p.body, marshal);
      var (saved, _) := SavePage(rows, p.issues, p.body, PlaceholdersIntended, marshal);
      ScrapeSavesOnlyIssues(saved, Some(PageText(start + 1)), pages, start + 1, marshal);
    }
  }

  /** With the statement as written no scrape changes the table. */
  lemma {:induction false} ScrapeAsWrittenSavesNothing(rows: map<int, Row>, file: Option<string>, pages: seq<Page>, start: int, marshal: seq<Label> -> string)
    ensures Scrape(rows, file, pages, start, PlaceholdersAsWritten, marshal).0 == rows
    decreases |pages| - start
  {
    var p := PageAt(pages, start);
    if p.Fetched? && p.issues != [] {
      SavePageAsWritten(rows, p.issues, p.body, marshal);
      ScrapeAsWrittenSavesNothing(rows, Some(PageText(start + 1)), pages, start + 1, marshal);
    }
  }

  /**
   * With the statement as written the first page holding an issue that is not
   * a pull request is fatal: pages before it holding only pull requests are
   * got past, each writing the next page to the page file, and the table is
   * untouched.
   */
  lemma {:induction false} ScrapeAsWrittenFatal(rows: map<int, Row>, file: Option<string>, pages: seq<Page>, start: int, q: int, marshal: seq<Label> -> string)
    requires start <= q
    requires forall p :: start <= p < q ==> Continues(pages, p) && IssueNumbers(PageAt(pages, p).issues) == {}
    requires PageAt(pages, q).Fetched? && IssueNumbers(PageAt(pages, q).issues) != {}
    ensures Scrape(rows, file, pages, start, PlaceholdersAsWritten, marshal) ==
      (rows, if q == start then file else Some(PageText(q)), Fatal(q))
    decreases q - start
  {
    var p := PageAt(pages, start);
    SavePageAsWritten(rows, p.issues, p.body, marshal);
    if start < q {
      ScrapeAsWrittenFatal(rows, Some(PageText(start + 1)), pages, start + 1, q, marshal);
    }
  }

  /** The sqlite table and the page file the scraper reads and writes. */
  class Scraper {
    var rows: map<int, Row>
    var pageFile: Option<string>

    constructor(rows: map<int, Row>, pageFile: Option<string>)
      ensures this.rows == rows && this.pageFile == pageFile
    {
      this.rows := rows;
      this.pageFile := pageFile;
    }

    /** The `for _, issue := range issues` loop of one page. */
    method SaveIssues(issues: seq<Issue>, body: string, placeholders: nat, marshal: seq<Label> -> string) returns (ok: bool)
      modifies this
      ensures (rows, ok) == SavePage(old(rows), issues, body, placeholders, marshal)
      ensures pageFile == old(pageFile)
    {
      var i := 0;
      while i < |issues|
        invariant 0 <= i <= |issues| && pageFile == old(pageFile)
        invariant (rows, true) == SavePage(old(rows), issues[..i], body, placeholders, marshal)
      {
        var issue := issues[i];
        assert issues[..i + 1][..i] == issues[..i];
        if issue.pullRequestUrl != "" {
          i := i + 1;
          continue;
        }
        var saved := SaveIssue(rows, placeholders, issue, marshal(issue.labels), body);
        if saved.Err? {
          SavePageFailStays(old(rows), issues, i + 1, body, placeholders, marshal);
          return false;
        }
        rows := saved.value;
        i := i + 1;
      }
      assert issues[..i] == issues;
      return true;
    }

    /** scrapeIssues from `startPage`, with `placeholders` in the INSERT statement. */
    method ScrapeIssues(pages: seq<Page>, startPage: int, placeholders: nat, marshal: seq<Label> -> string) returns (outcome: Outcome)
      modifies this
      ensures (rows, pageFile, outcome) == Scrape(old(rows), old(pageFile), pages, startPage, placeholders, marshal)
    {
      var page := startPage;
      while true
        invariant Scrape(rows, pageFile, pages, page, placeholders, marshal) == Scrape(old(rows), old(pageFile), pages, startPage, placeholders, marshal)
        decreases |pages| - page
      {
        var p := PageAt(pages, page);
        if p.Failed? {
          return Fatal(page);
        }
        if |p.issues| == 0 {
          return Finished(page);
        }
        var ok := SaveIssues(p.issues, p.body, placeholders, marshal);
        if !ok {
          return Fatal(page);
        }
        pageFile := Some(PageText(page + 1));
        page := page + 1;
      }
    }
  }

  /** Once a save on a page has failed, the page's result is that failure. */
  lemma {:induction false} SavePageFailStays(rows: map<int, Row>, issues: seq<Issue>, i: nat, body: string, placeholders: nat, marshal: seq<Label> -> string)
    requires i <= |issues| && !SavePage(rows, issues[..i], body, placeholders, marshal).1
    ensures SavePage(rows, issues, body, placeholders, marshal) == SavePage(rows, issues[..i], body, placeholders, marshal)
    decreases |issues| - i
  {
    if i < |issues| {
      assert issues[..i + 1][..i] == issues[..i];
      SavePageFailStays(rows, issues, i + 1, body, placeholders, marshal);
    } else {
      assert issues[..i] == issues;
    }
  }
}
