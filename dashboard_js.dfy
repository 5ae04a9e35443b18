/** The older dashboard of `frontend/src/components/Dashboard.js`: how its
    cards decide between an error line and the statistics, which contests its
    two contest cards list, and the link of its problem-of-the-day card. Its
    checks are JavaScript `&&` chains, so some inputs render stray text or
    throw while rendering. */
module DashboardJs {
  import opened JsRuntime
  import opened DashboardHelpers

  /** What a `{cond && list.map(...)}` child renders: nothing, the text of a
      falsy value React writes out, or one card per item. */
  datatype Children = Nothing | Text(text: string) | Cards(items: seq<Json>)

  /** A render that completes with a value, or one that throws a TypeError. */
  datatype Rendered<T> = Shown(value: T) | RenderError

  /** The child React makes of a falsy value that ended an `&&` chain: the
      number 0 is written out as "0"; `null`, `false` and "" render nothing. */
  function FalsyChild(v: Json): (r: Children)
    requires !Truthy(v)
    ensures r.Text? <==> v == JNum(0)
    ensures r.Text? ==> r.text == "0"
    ensures !r.Text? ==> r == Nothing
  {
    if v.JNum? then Text("0") else Nothing
  }

  /** How many contests the Codeforces contests card lists. */
  const CardSize := 3

  /** `CodeforcesContestsCard`: a list of contests gives cards for its last
      three, the last one first; any other value gives no card. */
  function CodeforcesContestsCard(contests: Json): (r: Children)
    ensures r.Cards? <==> contests.JArr?
    ensures r.Cards? ==>
      |r.items| == Min(CardSize, |contests.items|) &&
      forall i :: 0 <= i < |r.items| ==> r.items[i] == contests.items[|contests.items| - 1 - i]
    ensures r.Text? <==> contests == JNum(0)
  {
    if !Truthy(contests) then FalsyChild(contests)
    else if !contests.JArr? then Nothing
    else Cards(LatestFirst(contests.items, CardSize))
  }

  /** `CodechefContestsCard`: every contest of `future_contests`, in order and
      without a cap. Rendering throws when `contests` is `null`, or when
      `future_contests` is truthy but not an array (it has no `map`). */
  function CodechefContestsCard(contests: Json): (r: Rendered<Children>)
    ensures r.RenderError? <==>
      contests.JNull? ||
      (contests.JObj? && "future_contests" in contests.fields &&
       Truthy(contests.fields["future_contests"]) && !contests.fields["future_contests"].JArr?)
    ensures r.Shown? && r.value.Cards? ==>
      contests.JObj? && "future_contests" in contests.fields && contests.fields["future_contests"].JArr? &&
      r.value.items == contests.fields["future_contests"].items
    ensures contests.JObj? && "future_contests" in contests.fields && contests.fields["future_contests"].JArr?
            ==> r == Shown(Cards(contests.fields["future_contests"].items))
    ensures contests.JObj? && "future_contests" in contests.fields && !Truthy(contests.fields["future_contests"])
            ==> r == Shown(FalsyChild(contests.fields["future_contests"]))
    ensures !contests.JNull? && !(contests.JObj? && "future_contests" in contests.fields) ==> r == Shown(Nothing)
  {
    match Get(contests, "future_contests")
    case Throws => RenderError
    case Undefined => Shown(Nothing)
    case Defined(future) =>
      if !Truthy(future) then Shown(FalsyChild(future))
      else if future.JArr? then Shown(Cards(future.items))
      else RenderError
  }

  /** What the body of a platform statistics card shows. */
  datatype CardBody = ErrorLine(error: Json) | Statistics | CardCrash

  /** The `data.error ? … : …` choice of the Codeforces, CodeChef, LeetCode
      and GeeksforGeeks cards: a truthy `error` field replaces the
      statistics with that error; `null` data throws. */
  function StatsCardBody(data: Json): (r: CardBody)
    ensures r.CardCrash? <==> data.JNull?
    ensures r.ErrorLine? <==> data.JObj? && "error" in data.fields && Truthy(data.fields["error"])
    ensures r.ErrorLine? ==> r.error == data.fields["error"]
  {
    match Get(data, "error")
    case Throws => CardCrash
    case Undefined => Statistics
    case Defined(e) => if Truthy(e) then ErrorLine(e) else Statistics
  }

  /** The object a failed fetch leaves in the dashboard's state. */
  function FetchFailure(message: string): Json
  {
    JObj(map["error" := JStr(message)])
  }

  /** Before any reply, every card holds the initial `{}`: the statistics
      cards show their (empty) statistics, the contest cards list nothing and
      the problem link is "#". After a failed fetch the statistics cards show
      the failure message and the contest cards still list nothing. */
  lemma InitialAndFailedStates(message: string)
    requires message != ""
    ensures StatsCardBody(JObj(map[])) == Statistics
    ensures CodeforcesContestsCard(JObj(map[])) == Nothing
    ensures CodechefContestsCard(JObj(map[])) == Shown(Nothing)
    ensures PotdHref(JObj(map[])) == Shown("#")
    ensures StatsCardBody(FetchFailure(message)) == ErrorLine(JStr(message))
    ensures CodeforcesContestsCard(FetchFailure(message)) == Nothing
    ensures CodechefContestsCard(FetchFailure(message)) == Shown(Nothing)
  {
  }

  /** The `href` of the LeetCode problem-of-the-day card. The chain checks
      `leetcodePOTD`, `.data` and `.activeDailyCodingChallengeQuestion` for
      truthiness, then reads `.question.titleSlug` unchecked: a missing
      question throws, and a missing slug links to ".../problems/undefined". */
  function PotdHref(potd: Json): (r: Rendered<string>)
    ensures r.Shown? ==>
      r.value == "#" || (|r.value| >= |LeetCodeProblemsUrl| && r.value[..|LeetCodeProblemsUrl|] == LeetCodeProblemsUrl)
    ensures r == Shown("#") <==>
      !Truthy(potd) || !PropTruthy(Get(potd, "data"))
      || !PropTruthy(Get(Get(potd, "data").value, "activeDailyCodingChallengeQuestion"))
    ensures r.RenderError? <==>
      Truthy(potd) && PropTruthy(Get(potd, "data"))
      && var daily := Get(Get(potd, "data").value, "activeDailyCodingChallengeQuestion");
         PropTruthy(daily) && Get(daily.value, "question") in {Undefined, Defined(JNull)}
  {
    if !Truthy(potd) then Shown("#")
    else
      var data := Get(potd, "data");
      if !PropTruthy(data) then Shown("#")
      else
        var daily := Get(data.value, "activeDailyCodingChallengeQuestion");
        if !PropTruthy(daily) then Shown("#")
        else
          var slug := GetFrom(Get(daily.value, "question"), "titleSlug");
          if slug.Throws? then RenderError else Shown(LeetCodeProblemsUrl + PropToJsString(slug))
  }

  /** A reply whose question carries a slug links to that problem, whatever
      other keys its records hold; unlike the TypeScript dashboards, an empty
      slug still links to the problems page itself. */
  lemma PotdHrefOfSlug(potd: Json)
    requires PotdSlug(potd).Some?
    ensures PotdHref(potd) == Shown(LeetCodeProblemsUrl + ToJsString(PotdSlug(potd).value))
  {
  }

  /** Where the two dashboards part ways on a problem-of-the-day reply whose
      question has no `titleSlug`: the TypeScript dashboards link to "#",
      this one to ".../problems/undefined". */
  lemma PotdWithoutSlug(potd: Json)
    requires potd.JObj? && "data" in potd.fields
    requires var data := potd.fields["data"];
             data.JObj? && "activeDailyCodingChallengeQuestion" in data.fields
             && var daily := data.fields["activeDailyCodingChallengeQuestion"];
                daily.JObj? && "question" in daily.fields
                && daily.fields["question"].JObj? && "titleSlug" !in daily.fields["question"].fields
    ensures PotdUrl(potd) == "#"
    ensures PotdHref(potd) == Shown(LeetCodeProblemsUrl + "undefined")
  {
  }

  /** A reply whose daily challenge has no `question` record makes this card
      throw while rendering. */
  lemma PotdWithoutQuestion()
    ensures PotdHref(JObj(map["data" := JObj(map["activeDailyCodingChallengeQuestion" := JObj(map[])])])) == RenderError
  {
  }
}
