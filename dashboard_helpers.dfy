/** The display rules shared by the two TypeScript dashboards
    (`platform_frontend/app/dashboard/page.tsx` and
    `frontend/src/components/Dashboard.tsx` define these helpers with the same
    text, except for the default platform colour): date and duration text,
    difficulty and platform colours, the two upcoming-contest panels and the
    LeetCode problem-of-the-day link. */
module DashboardHelpers {
  import opened JsRuntime

  // ---------------------------------------------------------------------------
  // Dates and durations

  /** What `formatDate` shows: "N/A", or the local rendering of an instant
      given in milliseconds since the epoch (the Intl formatting itself is
      not modelled). */
  datatype DateText = NotAvailable | LocalDate(epochMillis: int)

  /** `formatDate(timestamp)` for a timestamp in seconds; `None` stands for
      `undefined` or `null`. Only a missing or zero timestamp is "N/A". */
  function FormatDate(timestamp: Option<int>): (r: DateText)
    ensures r.NotAvailable? <==> timestamp.None? || timestamp.value == 0
    ensures r.LocalDate? ==> r.epochMillis == 1000 * timestamp.value
  {
    match timestamp
    case None => NotAvailable
    case Some(t) => if t == 0 then NotAvailable else LocalDate(t * 1000)
  }

  /** `Math.floor(durationSeconds / 3600)`: the whole hours in a duration,
      rounded down (also for a negative duration). */
  function DurationHours(durationSeconds: int): (hours: int)
    ensures hours * 3600 <= durationSeconds < (hours + 1) * 3600
  {
    durationSeconds / 3600
  }

  /** A longer contest never shows fewer hours. */
  lemma DurationHoursMonotone(a: int, b: int)
    requires a <= b
    ensures DurationHours(a) <= DurationHours(b)
  {
    var ha, hb := DurationHours(a), DurationHours(b);
    assert ha * 3600 <= a <= b < (hb + 1) * 3600;
  }

  // ---------------------------------------------------------------------------
  // Colours

  const Gray := "bg-gray-500"
  const Green := "bg-green-500"
  const Yellow := "bg-yellow-500"
  const Red := "bg-red-500"
  const Blue := "bg-blue-500"

  /** The colour of a non-empty, lower-cased difficulty level. The tests run
      in order: "easy" anywhere, or exactly "school" or "basic", is green;
      then "medium" anywhere is yellow; then "hard" anywhere is red; any other
      level is blue. */
  function LevelColor(level: string): (color: string)
    ensures color in {Green, Yellow, Red, Blue}
  {
    if Includes(level, "easy") || level == "school" || level == "basic" then Green
    else if Includes(level, "medium") then Yellow
    else if Includes(level, "hard") then Red
    else Blue
  }

  /** The four tests decide in order, each by containment except the exact
      "school" and "basic": a level that passes an earlier test never reaches
      a later one, so "medium-hard" is yellow and "easy-hard" green. */
  lemma LevelColorOrder(level: string)
    ensures Includes(level, "easy") || level == "school" || level == "basic" ==> LevelColor(level) == Green
    ensures !Includes(level, "easy") && level != "school" && level != "basic"
            ==> (LevelColor(level) == Yellow <==> Includes(level, "medium"))
    ensures !Includes(level, "easy") && level != "school" && level != "basic" && !Includes(level, "medium")
            ==> (LevelColor(level) == Red <==> Includes(level, "hard"))
    ensures !Includes(level, "easy") && level != "school" && level != "basic"
            && !Includes(level, "medium") && !Includes(level, "hard")
            ==> LevelColor(level) == Blue
  {
    assert Green[3] == 'g' && Yellow[3] == 'y' && Red[3] == 'r' && Blue[3] == 'b';
  }

  /** `getDifficultyColor(difficulty)`; `None` is a missing difficulty, which
      like the empty text is gray; any other level is compared lower-cased. */
  function DifficultyColor(difficulty: Option<string>): (color: string)
    ensures color == Gray <==> difficulty.None? || difficulty.value == ""
    ensures color in {Gray, Green, Yellow, Red, Blue}
    ensures difficulty.Some? && difficulty.value != "" ==> color == LevelColor(ToLower(difficulty.value))
  {
    if difficulty.None? || difficulty.value == "" then Gray
    else LevelColor(ToLower(difficulty.value))
  }

  /** The colour does not depend on the level's letter case. */
  lemma DifficultyColorIgnoresCase(level: string)
    ensures DifficultyColor(Some(ToLower(level))) == DifficultyColor(Some(level))
  {
    ToLowerIdempotent(level);
  }

  /** The lower-cased levels LeetCode uses get green, yellow and red. */
  lemma LeetCodeLevelColors()
    ensures LevelColor("easy") == Green
    ensures LevelColor("medium") == Yellow
    ensures LevelColor("hard") == Red
  {
    assert OccursAt("easy", "easy", 0);
    assert !Includes("medium", "easy") by {
      NotOccursAt("medium", "easy", 0, 0); NotOccursAt("medium", "easy", 1, 1); NotOccursAt("medium", "easy", 2, 0);
    }
    assert "medium" != "school" by { assert "medium"[0] != "school"[0]; }
    assert Includes("medium", "medium") by { assert OccursAt("medium", "medium", 0); }
    assert !Includes("hard", "easy") by { NotOccursAt("hard", "easy", 0, 0); }
    assert !Includes("hard", "medium") by { NotOccursAt("hard", "medium", 0, 0); }
    assert Includes("hard", "hard") by { assert OccursAt("hard", "hard", 0); }
  }

  /** The exact levels "school" and "basic" are green; a level none of the
      tests recognises falls back to blue. */
  lemma OtherLevelColors()
    ensures LevelColor("school") == Green
    ensures LevelColor("basic") == Green
    ensures LevelColor("expert") == Blue
  {
    assert !Includes("expert", "easy") by {
      NotOccursAt("expert", "easy", 0, 1); NotOccursAt("expert", "easy", 1, 0); NotOccursAt("expert", "easy", 2, 0);
    }
    assert "expert" != "school" by { assert "expert"[0] != "school"[0]; }
    assert !Includes("expert", "medium") by { NotOccursAt("expert", "medium", 0, 0); }
    assert !Includes("expert", "hard") by {
      NotOccursAt("expert", "hard", 0, 0); NotOccursAt("expert", "hard", 1, 0); NotOccursAt("expert", "hard", 2, 0);
    }
  }

  /** LeetCode's and GeeksforGeeks' label "Easy" is green. */
  lemma EasyLabelColor()
    ensures DifficultyColor(Some("Easy")) == Green
  {
    LeetCodeLevelColors();
    assert ToLower("Easy") == "easy";
  }

  /** The label "Medium" is yellow. */
  lemma MediumLabelColor()
    ensures DifficultyColor(Some("Medium")) == Yellow
  {
    LeetCodeLevelColors();
    assert ToLower("Medium") == "medium";
  }

  /** The label "Hard" is red. */
  lemma HardLabelColor()
    ensures DifficultyColor(Some("Hard")) == Red
  {
    LeetCodeLevelColors();
    assert ToLower("Hard") == "hard";
  }

  /** GeeksforGeeks' label "School" is green like "Easy". */
  lemma SchoolLabelColor()
    ensures DifficultyColor(Some("School")) == Green
  {
    OtherLevelColors();
    assert ToLower("School") == "school";
  }

  /** GeeksforGeeks' label "Basic" is green like "Easy". */
  lemma BasicLabelColor()
    ensures DifficultyColor(Some("Basic")) == Green
  {
    OtherLevelColors();
    assert ToLower("Basic") == "basic";
  }

  /** A label none of the tests knows is blue. */
  lemma UnknownLabelColor()
    ensures DifficultyColor(Some("Expert")) == Blue
  {
    OtherLevelColors();
    assert ToLower("Expert") == "expert";
  }

  /** The tests are ordered: a level that mentions "easy" is green even when
      it also mentions a harder level. */
  lemma DifficultyEasyFirst(level: string)
    requires Includes(ToLower(level), "easy")
    ensures DifficultyColor(Some(level)) == Green
  {
  }

  const CodeforcesGradient := "bg-gradient-to-r from-blue-600 to-blue-400"
  const CodeChefGradient := "bg-gradient-to-r from-amber-600 to-amber-400"
  const LeetCodeGradient := "bg-gradient-to-r from-orange-600 to-orange-400"
  const GfgGradient := "bg-gradient-to-r from-green-600 to-green-400"

  /** The platform keys `getPlatformColor` knows. */
  predicate KnownPlatform(platform: string)
  {
    platform == "codeforces" || platform == "codechef" || platform == "leetcode" || platform == "gfg"
  }

  /** The `switch` of `getPlatformColor`, with the `default` gradient, which
      differs between the two dashboards, as a parameter. */
  function PlatformGradient(platform: string, fallback: string): (color: string)
    ensures !KnownPlatform(platform) ==> color == fallback
    ensures KnownPlatform(platform) ==> color in {CodeforcesGradient, CodeChefGradient, LeetCodeGradient, GfgGradient}
    ensures platform == "codeforces" ==> color == CodeforcesGradient
    ensures platform == "codechef" ==> color == CodeChefGradient
    ensures platform == "leetcode" ==> color == LeetCodeGradient
    ensures platform == "gfg" ==> color == GfgGradient
  {
    match platform
    case "codeforces" => CodeforcesGradient
    case "codechef" => CodeChefGradient
    case "leetcode" => LeetCodeGradient
    case "gfg" => GfgGradient
    case _ => fallback
  }

  /** With a default unlike the four brand gradients, the colour identifies
      the platform: two keys with the same colour are the same known key, or
      both unknown. */
  lemma PlatformGradientIdentifies(p: string, q: string, fallback: string)
    requires fallback !in {CodeforcesGradient, CodeChefGradient, LeetCodeGradient, GfgGradient}
    requires PlatformGradient(p, fallback) == PlatformGradient(q, fallback)
    ensures p == q || (!KnownPlatform(p) && !KnownPlatform(q))
  {
    assert CodeforcesGradient[22] == 'b' && CodeChefGradient[22] == 'a';
    assert LeetCodeGradient[22] == 'o' && GfgGradient[22] == 'g';
  }

  // ---------------------------------------------------------------------------
  // Upcoming contests

  /** `items.slice().reverse()`. */
  function Reverse(items: seq<Json>): (r: seq<Json>)
    ensures |r| == |items|
    ensures forall i :: 0 <= i < |items| ==> r[i] == items[|items| - 1 - i]
  {
    if items == [] then [] else Reverse(items[1..]) + [items[0]]
  }

  function Min(a: int, b: int): int
  {
    if a < b then a else b
  }

  /** `items.slice().reverse().slice(0, cap)`: at most `cap` items, taken from
      the end of the list, the last one first. */
  function LatestFirst(items: seq<Json>, cap: nat): (r: seq<Json>)
    ensures |r| == Min(cap, |items|)
    ensures forall i :: 0 <= i < |r| ==> r[i] == items[|items| - 1 - i]
  {
    Reverse(items)[..Min(cap, |items|)]
  }

  /** What a contest panel shows: the "No upcoming contests" line, or one
      card per contest in the given order. */
  datatype ContestPanel = NoUpcomingContests | ContestCards(contests: seq<Json>)

  /** How many contests a TypeScript dashboard panel lists. */
  const PanelSize := 5

  /** The Codeforces branch of `renderContests`: anything but an array gives
      the empty-state line; an array, even an empty one, gives the last five
      contests of the list, the last one first. */
  function CodeforcesPanel(contests: Json): (r: ContestPanel)
    ensures r.NoUpcomingContests? <==> !contests.JArr?
    ensures r.ContestCards? ==>
      |r.contests| == Min(PanelSize, |contests.items|) &&
      forall i :: 0 <= i < |r.contests| ==> r.contests[i] == contests.items[|contests.items| - 1 - i]
  {
    if !Truthy(contests) || !contests.JArr? then NoUpcomingContests
    else ContestCards(LatestFirst(contests.items, PanelSize))
  }

  /** `contests.future_contests` holds a non-empty array. */
  predicate HasFutureContests(contests: Json)
  {
    contests.JObj? && "future_contests" in contests.fields &&
    contests.fields["future_contests"].JArr? && |contests.fields["future_contests"].items| > 0
  }

  /** The CodeChef branch of `renderContests`: the panel lists contests only
      when `future_contests` is a non-empty array, and then its first five in
      their own order. */
  function CodeChefPanel(contests: Json): (r: ContestPanel)
    ensures r.ContestCards? <==> HasFutureContests(contests)
    ensures r.ContestCards? ==>
      var future := contests.fields["future_contests"].items;
      |r.contests| == Min(PanelSize, |future|) && r.contests == future[..|r.contests|]
  {
    if !Truthy(contests) then NoUpcomingContests
    else match Get(contests, "future_contests")
      case Defined(JArr(future)) =>
        if |future| == 0 then NoUpcomingContests else ContestCards(future[..Min(PanelSize, |future|)])
      case _ => NoUpcomingContests
  }

  /** Seven contests in upstream order: the Codeforces panel shows the last
      five, the last one first. */
  lemma CodeforcesPanelExample()
    ensures CodeforcesPanel(JArr([JNum(0), JNum(1), JNum(2), JNum(3), JNum(4), JNum(5), JNum(6)]))
            == ContestCards([JNum(6), JNum(5), JNum(4), JNum(3), JNum(2)])
  {
    var cs := [JNum(0), JNum(1), JNum(2), JNum(3), JNum(4), JNum(5), JNum(6)];
    var shown := CodeforcesPanel(JArr(cs)).contests;
    assert |shown| == 5;
    assert shown == [shown[0], shown[1], shown[2], shown[3], shown[4]];
  }

  /** Seven contests in upstream order: the CodeChef panel shows the first
      five, in that order. */
  lemma CodeChefPanelExample()
    ensures CodeChefPanel(JObj(map["future_contests" := JArr([JNum(0), JNum(1), JNum(2), JNum(3), JNum(4), JNum(5), JNum(6)])]))
            == ContestCards([JNum(0), JNum(1), JNum(2), JNum(3), JNum(4)])
  {
    var cs := [JNum(0), JNum(1), JNum(2), JNum(3), JNum(4), JNum(5), JNum(6)];
    assert cs[..5] == [JNum(0), JNum(1), JNum(2), JNum(3), JNum(4)];
  }

  // ---------------------------------------------------------------------------
  // LeetCode problem of the day

  const LeetCodeProblemsUrl := "https://leetcode.com/problems/"

  /** `v?.k1?.k2…`: `None` is `undefined`; reading on from `null` or
      `undefined` ends the whole chain with `undefined`. */
  function OptionalChain(v: Option<Json>, path: seq<string>): (r: Option<Json>)
    ensures v.None? ==> r.None?
    ensures path != [] && v == Some(JNull) ==> r.None?
    decreases |path|
  {
    if path == [] then v
    else match v
      case None => None
      case Some(x) =>
        if x.JNull? then None
        else
          var next := match Get(x, path[0]) case Defined(y) => Some(y) case _ => None;
          OptionalChain(next, path[1..])
  }

  const PotdSlugPath := ["data", "activeDailyCodingChallengeQuestion", "question", "titleSlug"]

  /** `potd.data.activeDailyCodingChallengeQuestion.question.titleSlug` when
      each of the three records on the way is an object that has the next key. */
  function PotdSlug(potd: Json): Option<Json>
  {
    if potd.JObj? && "data" in potd.fields then
      var data := potd.fields["data"];
      if data.JObj? && "activeDailyCodingChallengeQuestion" in data.fields then
        var daily := data.fields["activeDailyCodingChallengeQuestion"];
        if daily.JObj? && "question" in daily.fields then
          var question := daily.fields["question"];
          if question.JObj? && "titleSlug" in question.fields then Some(question.fields["titleSlug"])
          else None
        else None
      else None
    else None
  }

  /** The optional chain `?.data?.activeDailyCodingChallengeQuestion?.question?.titleSlug`
      reaches exactly the slug `PotdSlug` reads. */
  lemma PotdSlugChain(potd: Json)
    ensures OptionalChain(Some(potd), PotdSlugPath) == PotdSlug(potd)
  {
    assert PotdSlugPath[1..][1..][1..][1..] == [];
    var data := match Get(potd, "data") case Defined(y) => Some(y) case _ => None;
    assert OptionalChain(Some(potd), PotdSlugPath) == OptionalChain(data, PotdSlugPath[1..]);
    if data.Some? && !data.value.JNull? {
      var daily := match Get(data.value, "activeDailyCodingChallengeQuestion") case Defined(y) => Some(y) case _ => None;
      assert OptionalChain(data, PotdSlugPath[1..]) == OptionalChain(daily, PotdSlugPath[2..]);
      if daily.Some? && !daily.value.JNull? {
        var question := match Get(daily.value, "question") case Defined(y) => Some(y) case _ => None;
        assert OptionalChain(daily, PotdSlugPath[2..]) == OptionalChain(question, PotdSlugPath[3..]);
        if question.Some? && !question.value.JNull? {
          var slug := match Get(question.value, "titleSlug") case Defined(y) => Some(y) case _ => None;
          assert OptionalChain(question, PotdSlugPath[3..]) == OptionalChain(slug, []);
        }
      }
    }
  }

  /** The `url` given to the LeetCode problem card: the problem page of a
      truthy `titleSlug`, and "#" when the slug is missing or falsy. */
  function PotdUrl(potd: Json): (url: string)
    ensures PotdSlug(potd).Some? && Truthy(PotdSlug(potd).value)
            ==> url == LeetCodeProblemsUrl + ToJsString(PotdSlug(potd).value)
    ensures PotdSlug(potd).None? || !Truthy(PotdSlug(potd).value) ==> url == "#"
  {
    PotdSlugChain(potd);
    match OptionalChain(Some(potd), PotdSlugPath)
    case Some(slug) => if Truthy(slug) then LeetCodeProblemsUrl + ToJsString(slug) else "#"
    case None => "#"
  }

  /** Any reply whose question carries a string slug links to that problem,
      whatever other keys (`date`, `link`, `userStatus`, ...) its records
      hold; an empty slug links to "#". */
  lemma PotdUrlOfSlug(potd: Json, slug: string)
    requires PotdSlug(potd) == Some(JStr(slug))
    ensures PotdUrl(potd) == if slug == "" then "#" else LeetCodeProblemsUrl + slug
  {
  }

  /** The dashboard's initial `{}` and a fetch failure's `{ error }` object
      both link to "#". */
  lemma PotdUrlWithoutData(potd: Json)
    requires !potd.JObj? || "data" !in potd.fields
    ensures PotdUrl(potd) == "#"
  {
  }
}
