/** The JSON-backed handlers of the data controller: each reads one stored
    handle, refuses an empty one before any upstream call, calls one upstream
    endpoint and reshapes its reply. The CodeChef profile scraper is in
    module CodeChefProfile. */
module DataController {
  import opened JsRuntime
  import opened Http
  import opened Handles

  // ---------------------------------------------------------------------------
  // Upstream endpoints

  const CodeforcesUserInfoUrl := "https://codeforces.com/api/user.info?handles="
  const LeetCodeStatsUrl := "https://leetcode-stats-api.herokuapp.com/"
  const GfgStatsUrl := "https://geeks-for-geeks-stats-api.vercel.app/?raw=Y&userName="

  // ---------------------------------------------------------------------------
  // Shared reshaping

  /** `v[0]`: the first element of an array, the first character of a string,
      the property "0" of an object. */
  function First(v: Json): (r: Prop)
    ensures r.Throws? <==> v.JNull?
    ensures v.JArr? && v.items != [] ==> r == Defined(v.items[0])
    ensures v.JArr? && v.items == [] ==> r == Undefined
  {
    match v
    case JNull => Throws
    case JArr(items) => if |items| > 0 then Defined(items[0]) else Undefined
    case JStr(s) => if |s| > 0 then Defined(JStr([s[0]])) else Undefined
    case JObj(_) => Get(v, "0")
    case _ => Undefined
  }

  /** The object `{ k1: data.k1, ..., kn: data.kn }` as `res.json` sends it:
      keys whose value is `undefined` are dropped. */
  function Project(data: Json, keys: seq<string>): (r: map<string, Json>)
    requires !data.JNull?
    ensures forall k :: k in r ==> k in keys
    ensures forall k :: k in keys ==> (k in r <==> Get(data, k).Defined?)
    ensures forall k :: k in r ==> Get(data, k) == Defined(r[k])
  {
    if keys == [] then map[]
    else
      var rest := Project(data, keys[1..]);
      match Get(data, keys[0])
      case Defined(v) => rest[keys[0] := v]
      case _ => rest
  }

  // ---------------------------------------------------------------------------
  // getCodeforcesData

  /** `response.data.result[0]`, or a 500 when reading it throws. An empty
      `result` array yields `undefined`, which `res.json` sends as an empty
      body (None). */
  function FirstUserInfo(upstream: Fetched<Json>): (r: Response<Option<Json>>)
    ensures upstream.Received? && upstream.data.JObj? && "result" in upstream.data.fields
            && upstream.data.fields["result"].JArr? && |upstream.data.fields["result"].items| > 0
            ==> r == Ok(Some(upstream.data.fields["result"].items[0]))
    ensures upstream.Received? && Get(upstream.data, "result").Defined?
            && Get(upstream.data, "result").value.JArr? && Get(upstream.data, "result").value.items == []
            ==> r == Ok(None)
    ensures r.Failed? <==> upstream.Unreachable? || !Get(upstream.data, "result").Defined?
                           || Get(upstream.data, "result").value.JNull?
    ensures r.Failed? ==> r == Failed(500, ServerError)
  {
    match upstream
    case Unreachable => Failed(500, ServerError)
    case Received(data) =>
      match Get(data, "result")
      case Defined(result) =>
        (match First(result)
         case Throws => Failed(500, ServerError)
         case Undefined => Ok(None)
         case Defined(entry) => Ok(Some(entry)))
      case _ => Failed(500, ServerError)
  }

  /** `getCodeforcesData`: the user's first `user.info` entry, unchanged. */
  function GetCodeforcesData(user: Option<Platforms>, upstream: Fetched<Json>): (r: Exchange<Option<Json>>)
    ensures user.None? ==> r == Exchange(None, Failed(500, ServerError))
    ensures user.Some? && user.value.codeforces == ""
            ==> r == Exchange(None, Failed(400, MsgJson("Codeforces username not set")))
    ensures r.request.Some? <==> user.Some? && user.value.codeforces != ""
    ensures r.request.Some? ==> r.request.value == CodeforcesUserInfoUrl + user.value.codeforces
    ensures r.request.Some? ==> r.response == FirstUserInfo(upstream)
  {
    match user
    case None => Exchange(None, Failed(500, ServerError))
    case Some(p) =>
      if p.codeforces == "" then Exchange(None, Failed(400, MsgJson("Codeforces username not set")))
      else Exchange(Some(CodeforcesUserInfoUrl + p.codeforces), FirstUserInfo(upstream))
  }

  /** With a configured handle, the upstream record is forwarded as it came:
      a rating of 3500 upstream is a rating of 3500 in the response. */
  lemma CodeforcesForwardsRecord(handle: string, entry: Json, others: Platforms)
    requires handle != ""
    ensures var user := Some(others.(codeforces := handle));
            var reply := JObj(map["result" := JArr([entry])]);
            GetCodeforcesData(user, Received(reply))
              == Exchange(Some(CodeforcesUserInfoUrl + handle), Ok(Some(entry)))
  {
  }

  // ---------------------------------------------------------------------------
  // getUpcomingCodeforcesContests

  /** `contest.phase === 'BEFORE'` for a contest that is not null. */
  predicate IsUpcoming(contest: Json)
  {
    contest.JObj? && "phase" in contest.fields && contest.fields["phase"] == JStr("BEFORE")
  }

  /** How many of the contests have not started. */
  function UpcomingCount(contests: seq<Json>): nat
  {
    if contests == [] then 0 else (if IsUpcoming(contests[0]) then 1 else 0) + UpcomingCount(contests[1..])
  }

  /** `a` can be obtained from `b` by deleting elements. */
  predicate SubsequenceOf(a: seq<Json>, b: seq<Json>)
  {
    if a == [] then true
    else if b == [] then false
    else (a[0] == b[0] && SubsequenceOf(a[1..], b[1..])) || SubsequenceOf(a, b[1..])
  }

  /** `contests.filter(c => c.phase === 'BEFORE')` over a list without nulls. */
  function UpcomingOnly(contests: seq<Json>): (r: seq<Json>)
    ensures forall i :: 0 <= i < |r| ==> IsUpcoming(r[i])
    ensures SubsequenceOf(r, contests)
    ensures |r| == UpcomingCount(contests)
    ensures forall c :: c in contests && IsUpcoming(c) ==> c in r
  {
    if contests == [] then []
    else
      var rest := UpcomingOnly(contests[1..]);
      if IsUpcoming(contests[0]) then [contests[0]] + rest
      else
        assert rest != [] ==> rest[0] != contests[0];
        rest
  }

  /** A subsequence made only of upcoming contests has at most as many
      elements as there are upcoming contests. */
  lemma {:induction false} UpcomingSubsequenceBound(s: seq<Json>, contests: seq<Json>)
    requires SubsequenceOf(s, contests)
    requires forall i :: 0 <= i < |s| ==> IsUpcoming(s[i])
    ensures |s| <= UpcomingCount(contests)
  {
    if s != [] {
      if s[0] == contests[0] && SubsequenceOf(s[1..], contests[1..]) {
        UpcomingSubsequenceBound(s[1..], contests[1..]);
      } else {
        UpcomingSubsequenceBound(s, contests[1..]);
      }
    }
  }

  /** The filter is the only way to keep every upcoming contest in order:
      any subsequence of upcoming contests as long as their count is it. */
  lemma {:induction false} UpcomingOnlyUnique(s: seq<Json>, contests: seq<Json>)
    requires SubsequenceOf(s, contests)
    requires forall i :: 0 <= i < |s| ==> IsUpcoming(s[i])
    requires |s| == UpcomingCount(contests)
    ensures s == UpcomingOnly(contests)
  {
    if contests == [] {
    } else if s == [] {
      assert |UpcomingOnly(contests)| == 0;
    } else if s[0] == contests[0] && SubsequenceOf(s[1..], contests[1..]) {
      UpcomingOnlyUnique(s[1..], contests[1..]);
    } else {
      UpcomingSubsequenceBound(s, contests[1..]);
      assert !IsUpcoming(contests[0]);
      UpcomingOnlyUnique(s, contests[1..]);
    }
  }

  /** `getUpcomingCodeforcesContests`: the contests of the upstream list whose
      phase is "BEFORE", in upstream order. The filter throws on a null entry
      and on a `result` that is not an array; both end in a 500. */
  function GetUpcomingCodeforcesContests(upstream: Fetched<Json>): (r: Response<seq<Json>>)
    ensures r.Ok? <==> upstream.Received? && Get(upstream.data, "result").Defined?
                       && Get(upstream.data, "result").value.JArr?
                       && JNull !in Get(upstream.data, "result").value.items
    ensures r.Ok? ==> r.body == UpcomingOnly(Get(upstream.data, "result").value.items)
    ensures r.Failed? ==> r == Failed(500, ServerError)
  {
    match upstream
    case Unreachable => Failed(500, ServerError)
    case Received(data) =>
      match Get(data, "result")
      case Defined(JArr(contests)) =>
        if JNull in contests then Failed(500, ServerError) else Ok(UpcomingOnly(contests))
      case _ => Failed(500, ServerError)
  }

  /** The upstream phases BEFORE, CODING, FINISHED keep only the first. */
  lemma UpcomingExample()
    ensures var a, b, c := map["phase" := JStr("BEFORE")], map["phase" := JStr("CODING")],
                           map["phase" := JStr("FINISHED")];
            UpcomingOnly([JObj(a), JObj(b), JObj(c)]) == [JObj(a)]
  {
    var a, b, c := map["phase" := JStr("BEFORE")], map["phase" := JStr("CODING")],
                   map["phase" := JStr("FINISHED")];
    assert "CODING"[0] != "BEFORE"[0] && "FINISHED"[0] != "BEFORE"[0];
    assert !IsUpcoming(JObj(b)) && !IsUpcoming(JObj(c));
    assert [JObj(a), JObj(b), JObj(c)][1..] == [JObj(b), JObj(c)];
    assert [JObj(b), JObj(c)][1..] == [JObj(c)];
    assert [JObj(c)][1..] == [];
    assert UpcomingOnly([JObj(c)]) == [];
    assert UpcomingOnly([JObj(b), JObj(c)]) == [];
    assert IsUpcoming(JObj(a));
  }

  // ---------------------------------------------------------------------------
  // getCodeChefContests

  /** The four upstream buckets the contest list republishes. */
  const ContestBuckets := ["present_contests", "future_contests", "practice_contests", "past_contests"]

  /** `getCodeChefContests`: unless upstream's `status` is exactly "success",
      a 500 `{ msg }`; otherwise the four buckets, unfiltered and unchanged. */
  function GetCodeChefContests(upstream: Fetched<Json>): (r: Response<map<string, Json>>)
    ensures r.Ok? <==> upstream.Received? && Get(upstream.data, "status") == Defined(JStr("success"))
    ensures upstream.Received? && !upstream.data.JNull?
            && Get(upstream.data, "status") != Defined(JStr("success"))
            ==> r == Failed(500, MsgJson("Failed to fetch contests"))
    ensures upstream.Unreachable? || upstream.data.JNull? ==> r == Failed(500, ServerError)
    ensures r.Ok? ==> forall k :: k in r.body ==> k in ContestBuckets && Get(upstream.data, k) == Defined(r.body[k])
    ensures r.Ok? ==> forall k :: k in ContestBuckets && Get(upstream.data, k).Defined? ==> k in r.body
  {
    match upstream
    case Unreachable => Failed(500, ServerError)
    case Received(data) =>
      match Get(data, "status")
      case Throws => Failed(500, ServerError)
      case Undefined => Failed(500, MsgJson("Failed to fetch contests"))
      case Defined(status) =>
        if status == JStr("success") then Ok(Project(data, ContestBuckets))
        else Failed(500, MsgJson("Failed to fetch contests"))
  }

  // ---------------------------------------------------------------------------
  // getLeetCodeData

  /** The twelve statistics copied as they are. */
  const CopiedStatFields := [
    "totalSolved", "totalQuestions", "easySolved", "totalEasy", "mediumSolved", "totalMedium",
    "hardSolved", "totalHard", "acceptanceRate", "ranking", "contributionPoints", "reputation"]

  /** The `stats` record built from the proxy's reply. */
  function LeetCodeStats(data: Json): (r: map<string, Json>)
    requires !data.JNull?
    ensures forall k :: k in r ==> k in CopiedStatFields || k == "submissionCalendar"
    ensures forall k :: k in CopiedStatFields ==> (k in r <==> Get(data, k).Defined?)
    ensures forall k :: k in CopiedStatFields && k in r ==> Get(data, k) == Defined(r[k])
    ensures "submissionCalendar" in r
    ensures PropTruthy(Get(data, "submissionCalendar")) ==> r["submissionCalendar"] == Get(data, "submissionCalendar").value
    ensures !PropTruthy(Get(data, "submissionCalendar")) ==> r["submissionCalendar"] == JObj(map[])
  {
    var calendar := Get(data, "submissionCalendar");
    Project(data, CopiedStatFields)["submissionCalendar" := if PropTruthy(calendar) then calendar.value else JObj(map[])]
  }

  /** `getLeetCodeData`: the stats projection of the proxy's reply. */
  function GetLeetCodeData(user: Option<Platforms>, upstream: Fetched<Json>): (r: Exchange<map<string, Json>>)
    ensures user.None? ==> r == Exchange(None, Failed(500, PlainText("Failed to fetch LeetCode stats")))
    ensures user.Some? && user.value.leetcode == ""
            ==> r == Exchange(None, Failed(400, MsgJson("Leetcode username not set")))
    ensures r.request.Some? <==> user.Some? && user.value.leetcode != ""
    ensures r.request.Some? ==> r.request.value == LeetCodeStatsUrl + user.value.leetcode
    ensures r.response.Ok? <==> r.request.Some? && upstream.Received? && !upstream.data.JNull?
    ensures r.response.Ok? ==> r.response.body == LeetCodeStats(upstream.data)
    ensures r.response.Failed? ==> r.response == Failed(500, PlainText("Failed to fetch LeetCode stats"))
                                   || r.response == Failed(400, MsgJson("Leetcode username not set"))
    ensures r.request.Some? && r.response.Failed?
            ==> r.response == Failed(500, PlainText("Failed to fetch LeetCode stats"))
  {
    match user
    case None => Exchange(None, Failed(500, PlainText("Failed to fetch LeetCode stats")))
    case Some(p) =>
      if p.leetcode == "" then Exchange(None, Failed(400, MsgJson("Leetcode username not set")))
      else
        var response :=
          match upstream
          case Received(data) =>
            if data.JNull? then Failed(500, PlainText("Failed to fetch LeetCode stats"))
            else Ok(LeetCodeStats(data))
          case Unreachable => Failed(500, PlainText("Failed to fetch LeetCode stats"));
        Exchange(Some(LeetCodeStatsUrl + p.leetcode), response)
  }

  // ---------------------------------------------------------------------------
  // getGFGData

  /** `getGFGData`: the stats proxy's reply, forwarded unchanged. */
  function GetGFGData(user: Option<Platforms>, upstream: Fetched<Json>): (r: Exchange<Json>)
    ensures user.None? ==> r == Exchange(None, Failed(500, ErrorJson("Failed to fetch GFG data")))
    ensures user.Some? && user.value.gfg == ""
            ==> r == Exchange(None, Failed(400, MsgJson("gfg username not set")))
    ensures r.request.Some? <==> user.Some? && user.value.gfg != ""
    ensures r.request.Some? ==> r.request.value == GfgStatsUrl + user.value.gfg
    ensures r.request.Some? && upstream.Received? ==> r.response == Ok(upstream.data)
    ensures r.request.Some? && upstream.Unreachable? ==> r.response == Failed(500, ErrorJson("Failed to fetch GFG data"))
  {
    match user
    case None => Exchange(None, Failed(500, ErrorJson("Failed to fetch GFG data")))
    case Some(p) =>
      if p.gfg == "" then Exchange(None, Failed(400, MsgJson("gfg username not set")))
      else
        var response :=
          match upstream
          case Received(data) => Ok(data)
          case Unreachable => Failed(500, ErrorJson("Failed to fetch GFG data"));
        Exchange(Some(GfgStatsUrl + p.gfg), response)
  }
}
