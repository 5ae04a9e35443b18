/** `getCodeChefData`: the CodeChef profile page, already matched by the CSS
    selectors, turned into the profile record the dashboards render. */
module CodeChefProfile {
  import opened JsRuntime
  import opened Http
  import opened Handles

  const CodeChefUsersUrl := "https://www.codechef.com/users/"
  const CodeChefBase := "https://www.codechef.com"

  /** One `p` of a fully-solved article: the text of its link and the link's
      `href` attribute (None when there is no link or no attribute). */
  datatype ProblemAnchor = ProblemAnchor(text: string, href: Option<string>)

  /** One `article` of the problems-solved section: its `h5` text and its entries. */
  datatype ProblemsArticle = ProblemsArticle(heading: string, problems: seq<ProblemAnchor>)

  /** The texts the page's selectors yield, untrimmed. An empty selection
      yields "", which is how absent elements show up here.
      - ratingNumber: `.rating-number`
      - ratingBadge: `.rating`
      - ratingHeaderSmall: the last `.rating-header small`
      - firstRank, lastRank: the first and last `.rating-ranks a strong`
      - ratingRows: the `.rating-table tr` rows in table order; in each row,
        entry k is what the controller reads from cell k (for cells 2 and 3,
        the text of the link inside it); a row may have fewer entries
      - articles: the `.rating-data-section.problems-solved article`s in order */
  datatype ProfilePage = ProfilePage(
    ratingNumber: string,
    ratingBadge: string,
    ratingHeaderSmall: string,
    firstRank: string,
    lastRank: string,
    ratingRows: seq<seq<string>>,
    articles: seq<ProblemsArticle>)

  /** One row of the contest history. A rank is None for `null`. */
  datatype ContestEntry = ContestEntry(name: string, rating: JsInt, globalRank: Option<JsInt>, countryRank: Option<JsInt>)

  /** One fully solved problem. */
  datatype SolvedProblem = SolvedProblem(name: string, link: string)

  /** The `userData` record. A NaN field is sent as `null` by `res.json`. */
  datatype CodeChefData = CodeChefData(
    status: string,
    rating: JsInt,
    stars: string,
    highestRating: JsInt,
    globalRank: Option<JsInt>,
    countryRank: Option<JsInt>,
    contests: seq<ContestEntry>,
    fullySolved: map<string, seq<SolvedProblem>>)

  // ---------------------------------------------------------------------------
  // Field rules

  /** A trimmed rank text: exactly "NA" is `null`, anything else `parseInt`. */
  function RankValue(text: string): (r: Option<JsInt>)
    ensures r.None? <==> text == "NA"
    ensures r.Some? ==> r.value == ParseInt(text)
  {
    if text == "NA" then None else Some(ParseInt(text))
  }

  /** "NA" is null and the digits "42" are the number 42. */
  lemma RankExamples()
    ensures RankValue("NA") == None
    ensures RankValue("42") == Some(Int(42))
  {
    assert NatToDecimal(42) == "42" by {
      assert NatToDecimal(4) == "4";
    }
    ParseIntDecimal(42);
  }

  /** The highest rating: the third space-separated token of the trimmed
      header text, without its last character, through `parseInt`. None when
      there is no third token, where `undefined.slice` throws. */
  function HighestRating(headerText: string): (r: Option<JsInt>)
    ensures r.None? <==> SpaceCount(Trim(headerText)) < 2
  {
    var tokens := Split(Trim(headerText));
    if |tokens| < 3 then None else Some(ParseInt(DropLast(tokens[2])))
  }

  /** A header such as "(Highest Rating 2045)" gives 2045. */
  lemma {:induction false} HighestRatingOfHeader(headerText: string, a: string, b: string, n: nat)
    requires ' ' !in a && ' ' !in b
    requires Trim(headerText) == a + " " + b + " " + NatToDecimal(n) + ")"
    ensures HighestRating(headerText) == Some(Int(n))
  {
    var last := NatToDecimal(n) + ")";
    assert ' ' !in last by {
      forall i | 0 <= i < |last| ensures last[i] != ' ' {
        if i < |NatToDecimal(n)| { assert last[i] == NatToDecimal(n)[i]; }
      }
    }
    assert Trim(headerText) == a + " " + (b + " " + last);
    SplitAfterToken(a, b + " " + last);
    SplitAfterToken(b, last);
    SplitSingleToken(last);
    var tokens := Split(Trim(headerText));
    assert tokens == [a, b, last];
    assert DropLast(last) == NatToDecimal(n);
    ParseIntIgnoresSuffix(n, []);
    assert NatToDecimal(n) + [] == NatToDecimal(n);
  }

  /** Cell k of a row, or "" when the row has no such cell. */
  function Cell(row: seq<string>, k: nat): string
  {
    if k < |row| then row[k] else ""
  }

  /** The record pushed for one contest-history row. */
  function HistoryEntry(row: seq<string>): ContestEntry
  {
    ContestEntry(Trim(Cell(row, 0)), ParseInt(Trim(Cell(row, 1))), RankValue(Trim(Cell(row, 2))), RankValue(Trim(Cell(row, 3))))
  }

  /** The contest history: one entry per table row after the header row. */
  function ContestHistory(rows: seq<seq<string>>): (r: seq<ContestEntry>)
    ensures |r| == if rows == [] then 0 else |rows| - 1
    ensures forall i :: 0 <= i < |r| ==> r[i] == HistoryEntry(rows[i + 1])
  {
    if |rows| <= 1 then [] else seq(|rows| - 1, i requires 0 <= i < |rows| - 1 => HistoryEntry(rows[i + 1]))
  }

  /** The `.each` loop over the rating table's rows that skips row 0 and pushes
      one record per other row. */
  method CollectContestHistory(rows: seq<seq<string>>) returns (contests: seq<ContestEntry>)
    ensures |contests| == if rows == [] then 0 else |rows| - 1
    ensures forall i :: 0 <= i < |contests| ==> contests[i] == HistoryEntry(rows[i + 1])
    ensures contests == ContestHistory(rows)
  {
    contests := [];
    var i := 0;
    while i < |rows|
      invariant 0 <= i <= |rows|
      invariant |contests| == if i == 0 then 0 else i - 1
      invariant forall j :: 0 <= j < |contests| ==> contests[j] == HistoryEntry(rows[j + 1])
    {
      if i > 0 {
        contests := contests + [HistoryEntry(rows[i])];
      }
      i := i + 1;
    }
    assert |contests| == |ContestHistory(rows)|;
    assert forall j :: 0 <= j < |contests| ==> contests[j] == ContestHistory(rows)[j];
  }

  /** `'https://www.codechef.com' + href`; a missing href reads "undefined". */
  function ProblemLink(href: Option<string>): (link: string)
    ensures |link| >= |CodeChefBase| && link[..|CodeChefBase|] == CodeChefBase
    ensures href.Some? ==> link[|CodeChefBase|..] == href.value
    ensures href.None? ==> link == CodeChefBase + "undefined"
  {
    CodeChefBase + (if href.Some? then href.value else "undefined")
  }

  /** The record pushed for one problem entry. */
  function SolvedProblemOf(anchor: ProblemAnchor): SolvedProblem
  {
    SolvedProblem(Trim(anchor.text), ProblemLink(anchor.href))
  }

  /** The records of one article's problem entries, in order. */
  function SolvedList(problems: seq<ProblemAnchor>): seq<SolvedProblem>
  {
    if problems == [] then [] else SolvedList(problems[..|problems| - 1]) + [SolvedProblemOf(problems[|problems| - 1])]
  }

  /** The fully-solved dictionary after the first |articles| articles: each
      article resets its category to a fresh list of its own problems. */
  function FullySolved(articles: seq<ProblemsArticle>): map<string, seq<SolvedProblem>>
  {
    if articles == [] then map[]
    else
      var last := articles[|articles| - 1];
      FullySolved(articles[..|articles| - 1])[Trim(last.heading) := SolvedList(last.problems)]
  }

  /** The index of the last article whose trimmed heading is `category`, or -1. */
  function LastWithHeading(articles: seq<ProblemsArticle>, category: string): (j: int)
    ensures -1 <= j < |articles|
    ensures j >= 0 ==> Trim(articles[j].heading) == category
    ensures forall i :: j < i < |articles| ==> Trim(articles[i].heading) != category
  {
    if articles == [] then -1
    else if Trim(articles[|articles| - 1].heading) == category then |articles| - 1
    else LastWithHeading(articles[..|articles| - 1], category)
  }

  /** The dictionary has one key per category heading, and a heading that
      appears twice keeps only the problems of its last article. */
  lemma {:induction false} FullySolvedLastWins(articles: seq<ProblemsArticle>, category: string)
    ensures category in FullySolved(articles) <==> LastWithHeading(articles, category) >= 0
    ensures category in FullySolved(articles)
            ==> FullySolved(articles)[category] == SolvedList(articles[LastWithHeading(articles, category)].problems)
  {
    if articles != [] {
      var prefix := articles[..|articles| - 1];
      FullySolvedLastWins(prefix, category);
      if Trim(articles[|articles| - 1].heading) != category {
        assert LastWithHeading(articles, category) == LastWithHeading(prefix, category);
        if LastWithHeading(prefix, category) >= 0 {
          assert articles[LastWithHeading(prefix, category)] == prefix[LastWithHeading(prefix, category)];
        }
      }
    }
  }

  /** Every link in the dictionary is the site's base URL followed by the href. */
  lemma {:induction false} SolvedListLinks(problems: seq<ProblemAnchor>)
    ensures |SolvedList(problems)| == |problems|
    ensures forall j :: 0 <= j < |problems| ==> SolvedList(problems)[j] == SolvedProblemOf(problems[j])
  {
    if problems != [] {
      SolvedListLinks(problems[..|problems| - 1]);
      var prefix := problems[..|problems| - 1];
      forall j | 0 <= j < |problems| - 1 ensures SolvedList(problems)[j] == SolvedProblemOf(problems[j]) {
        assert problems[j] == prefix[j];
      }
    }
  }

  /** The two `.each` loops that build the fully-solved dictionary: per
      article, reset its category to [] and push each problem entry. */
  method CollectFullySolved(articles: seq<ProblemsArticle>) returns (solved: map<string, seq<SolvedProblem>>)
    ensures solved == FullySolved(articles)
  {
    solved := map[];
    for i := 0 to |articles|
      invariant solved == FullySolved(articles[..i])
    {
      var category := Trim(articles[i].heading);
      var problems := articles[i].problems;
      ghost var before := solved;
      solved := solved[category := []];
      for j := 0 to |problems|
        invariant category in solved && solved[category] == SolvedList(problems[..j])
        invariant solved == before[category := solved[category]]
      {
        assert problems[..j + 1][..j] == problems[..j];
        solved := solved[category := solved[category] + [SolvedProblemOf(problems[j])]];
      }
      assert problems[..|problems|] == problems;
      assert articles[..i + 1][..i] == articles[..i];
      assert FullySolved(articles[..i + 1]) == FullySolved(articles[..i])[category := SolvedList(problems)];
    }
    assert articles[..|articles|] == articles;
  }

  // ---------------------------------------------------------------------------
  // The handler

  /** The profile record of a page, or a 500 when the highest-rating header
      has fewer than three tokens. */
  function ProfileOf(page: ProfilePage): (r: Response<CodeChefData>)
    ensures r.Failed? <==> HighestRating(page.ratingHeaderSmall).None?
    ensures r.Failed? ==> r == Failed(500, ServerError)
    ensures r.Ok? ==> r.body.status == "Success"
                      && r.body.rating == ParseInt(Trim(page.ratingNumber))
                      && r.body.stars == Trim(page.ratingBadge)
                      && Some(r.body.highestRating) == HighestRating(page.ratingHeaderSmall)
                      && r.body.globalRank == RankValue(Trim(page.firstRank))
                      && r.body.countryRank == RankValue(Trim(page.lastRank))
                      && |r.body.contests| == (if page.ratingRows == [] then 0 else |page.ratingRows| - 1)
                      && r.body.contests == ContestHistory(page.ratingRows)
                      && r.body.fullySolved == FullySolved(page.articles)
  {
    match HighestRating(page.ratingHeaderSmall)
    case None => Failed(500, ServerError)
    case Some(highest) =>
      Ok(CodeChefData(
        "Success",
        ParseInt(Trim(page.ratingNumber)),
        Trim(page.ratingBadge),
        highest,
        RankValue(Trim(page.firstRank)),
        RankValue(Trim(page.lastRank)),
        ContestHistory(page.ratingRows),
        FullySolved(page.articles)))
  }

  /** A page without a rating table or a problems section still gives a
      profile, with an empty history and an empty dictionary. */
  lemma ProfileWithoutSections(page: ProfilePage)
    requires page.ratingRows == [] && page.articles == []
    requires HighestRating(page.ratingHeaderSmall).Some?
    ensures ProfileOf(page).Ok?
    ensures ProfileOf(page).body.contests == [] && ProfileOf(page).body.fullySolved == map[]
  {
  }

  /** What `getCodeChefData` sends for a stored handle and the page upstream serves. */
  function CodeChefDataOf(user: Option<Platforms>, upstream: Fetched<ProfilePage>): (r: Exchange<CodeChefData>)
    ensures user.None? ==> r == Exchange(None, Failed(500, ServerError))
    ensures user.Some? && user.value.codechef == ""
            ==> r == Exchange(None, Failed(400, MsgJson("CodeChef username not set")))
    ensures r.request.Some? <==> user.Some? && user.value.codechef != ""
    ensures r.request.Some? ==> r.request.value == CodeChefUsersUrl + user.value.codechef
    ensures r.request.Some? && upstream.Unreachable? ==> r.response == Failed(500, ServerError)
    ensures r.request.Some? && upstream.Received? ==> r.response == ProfileOf(upstream.data)
  {
    match user
    case None => Exchange(None, Failed(500, ServerError))
    case Some(p) =>
      if p.codechef == "" then Exchange(None, Failed(400, MsgJson("CodeChef username not set")))
      else
        var response := match upstream
          case Received(page) => ProfileOf(page)
          case Unreachable => Failed(500, ServerError);
        Exchange(Some(CodeChefUsersUrl + p.codechef), response)
  }

  /** `getCodeChefData`, running the scraping loops. */
  method GetCodeChefData(user: Option<Platforms>, upstream: Fetched<ProfilePage>) returns (r: Exchange<CodeChefData>)
    ensures r == CodeChefDataOf(user, upstream)
  {
    if user.None? {
      return Exchange(None, Failed(500, ServerError));
    }
    var handle := user.value.codechef;
    if handle == "" {
      return Exchange(None, Failed(400, MsgJson("CodeChef username not set")));
    }
    var url := CodeChefUsersUrl + handle;
    if upstream.Unreachable? {
      return Exchange(Some(url), Failed(500, ServerError));
    }
    var page := upstream.data;
    var highest := HighestRating(page.ratingHeaderSmall);
    if highest.None? {
      return Exchange(Some(url), Failed(500, ServerError));
    }
    var contests := CollectContestHistory(page.ratingRows);
    var solved := CollectFullySolved(page.articles);
    var data := CodeChefData(
      "Success",
      ParseInt(Trim(page.ratingNumber)),
      Trim(page.ratingBadge),
      highest.value,
      RankValue(Trim(page.firstRank)),
      RankValue(Trim(page.lastRank)),
      contests,
      solved);
    r := Exchange(Some(url), Ok(data));
  }
}
