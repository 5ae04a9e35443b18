# Competitive-programming dashboard: data controller and dashboard display rules

This project is a Dafny model of the core of a dashboard that collects a
user's competitive-programming profiles. It covers two parts.

**The backend data controller.** It stores one handle per platform:
Codeforces, CodeChef, LeetCode and GeeksforGeeks. Its handlers work as
follows:

- Each handler refuses an empty handle before it calls anything upstream.
- The Codeforces handler forwards the user's `user.info` record.
- One handler filters the Codeforces contest list down to contests that have not started.
- One handler republishes the CodeChef contest buckets.
- The LeetCode handler projects the LeetCode statistics.
- The GeeksforGeeks handler forwards the GeeksforGeeks statistics.
- One handler scrapes the CodeChef profile page into a profile record.
- The handle editor updates the stored handles.
- The profile handler renames the stored handles for the dashboards.

**The three dashboards' display rules.** These cover:

- date and duration text;
- difficulty and platform colours;
- which contests the contest panels list, and in which order;
- when a statistics card shows an error instead of statistics;
- the link of the LeetCode problem of the day.

The model is organised in these modules:

| module | file | content |
|---|---|---|
| `JsRuntime` | `js_runtime.dfy` | JSON values and the JavaScript built-ins the code relies on |
| `Http` | `http.dfy` | responses, upstream replies and the "was an upstream call made" record |
| `Handles` | `handles.dfy` | stored handles, the `UserDocument` class updated in place, the editor and profile handlers |
| `DataController` | `data_controller.dfy` | the JSON-backed handlers |
| `CodeChefProfile` | `codechef_profile.dfy` | the CodeChef page scraper, with its two collection loops as methods |
| `DashboardHelpers` | `dashboard_helpers.dfy` | helpers shared by the two TypeScript dashboards |
| `PlatformDashboard` | `platform_dashboard.dfy` | the platform colours of the TypeScript page |
| `DashboardTsx` | `dashboard_tsx.dfy` | the platform colours of the TypeScript component |
| `DashboardJs` | `dashboard_js.dfy` | the older JavaScript dashboard |

The JavaScript built-ins in `JsRuntime` include:

- property reads that can throw, and truthiness;
- `trim`, `split(' ')` and `slice(0, -1)`;
- `toLowerCase` and `includes`;
- `parseInt`;
- template-literal text.

Some conventions hold across the model:

- **Upstream replies and user lookups are parameters.** A handler takes the
  stored handles as an `Option`. `None` stands for a lookup that found no
  user: reading `user.platforms` on it throws, and the handler's `catch`
  sends a 500. For every handler but `setPlatformUsernames` a rejected
  lookup ends in the same `catch`; there the rejection is a separate
  `lookupRejected` flag, because a missing user is a 404 and a rejection a
  500.
- **Upstream replies** are `Fetched` values: `Received(data)`, or
  `Unreachable` for a failed request.
- **Request records.** The handlers return an `Exchange`. It records the URL
  they would request, or `None` when they answer before any upstream call.
- **The CodeChef page** is given as the texts and rows its CSS selectors
  yield.
- **Shared helpers.** `platform_frontend/app/dashboard/page.tsx` and
  `frontend/src/components/Dashboard.tsx` define `formatDate`,
  `getDifficultyColor` and the contest panels with the same logic; only
  their TypeScript type annotations differ. They are
  modelled once, in `DashboardHelpers`. `getPlatformColor` differs only in
  its default gradient: the switch is shared, and each dashboard module
  supplies its default.
- **Contest durations.** All three dashboards show a contest's duration
  with the same `Math.floor(durationSeconds / 3600)` expression:
  `frontend/src/components/Dashboard.tsx` line 868 and
  `frontend/src/components/Dashboard.js` line 223 as well as the page. It is
  modelled once, as `DurationHours`.

Two places where the behaviour differs from what one might expect; the
model follows the code:

- **Highest rating.** The CodeChef highest rating takes the third
  space-separated token of the trimmed header text without a bounds check.
  When the header has fewer than three tokens, reading `.slice` of
  `undefined` throws, and the whole CodeChef response becomes a 500. It is
  not a `null` field. `ProfileOf` states exactly this.
- **Profile error text.** The error text of `getProfile` is "Failed to fetch
  LeetCode POTD", a message copied from another handler. The model keeps
  it.

## Model

| member | source | states |
|---|---|---|
| JsRuntime.TrimStartRemovesLeading | backend/controllers/dataController.js:79-83 | `trim`'s left half removes exactly the leading whitespace: the result is a suffix, everything removed is whitespace, and the result does not start with whitespace |
| JsRuntime.Trim | backend/controllers/dataController.js:79-83 | `s.trim()` is `trimEnd` of `trimStart`; what it removes and keeps is stated by the two lemmas on either side of this row and by `TrimmedPiece` |
| JsRuntime.TrimEndRemovesTrailing | backend/controllers/dataController.js:79-83 | `trim`'s right half removes exactly the trailing whitespace: the result is a prefix, everything removed is whitespace, and the result does not end with whitespace |
| JsRuntime.TrimmedPiece | backend/controllers/dataController.js:79-83 | `trim(s)` occurs in `s`, with only whitespace before and after it, and neither starts nor ends with whitespace |
| JsRuntime.TrimUnchanged | backend/controllers/dataController.js:79-83 | text that neither starts nor ends with whitespace is left unchanged by `trim` |
| JsRuntime.Split | backend/controllers/dataController.js:81 | `split(' ')` gives one more piece than there are spaces; no piece contains a space; joining the pieces with spaces gives the text back |
| JsRuntime.SplitAfterToken | backend/controllers/dataController.js:81 | splitting `a + " " + t`, with `a` free of spaces, gives `a` followed by the pieces of `t` |
| JsRuntime.SplitSingleToken | backend/controllers/dataController.js:81 | text without a space splits into itself alone |
| JsRuntime.DropLast | backend/controllers/dataController.js:81 | `slice(0, -1)` drops exactly the last character; empty text stays empty |
| JsRuntime.ToLowerChars | platform_frontend/app/dashboard/page.tsx:87 | `toLowerCase` keeps the length, maps each character on its own, and leaves no upper-case letter |
| JsRuntime.ToLowerIdempotent | platform_frontend/app/dashboard/page.tsx:87 | lower-casing twice is lower-casing once |
| JsRuntime.Includes | platform_frontend/app/dashboard/page.tsx:88-91 | `includes` holds exactly when the sought text occurs at some index |
| JsRuntime.DigitPrefix | backend/controllers/dataController.js:94-96 | `parseInt` reads the longest run of digits at the front: the result is a prefix, all digits, and is followed by a non-digit or the end |
| JsRuntime.LeadingNumber | backend/controllers/dataController.js:94-96 | the number read from a leading run of digits is never negative |
| JsRuntime.ParseUnsigned | backend/controllers/dataController.js:94-96 | the number read after the sign, in base 16 after a `0x` prefix or else in base 10, is never negative |
| JsRuntime.ParseInt | backend/controllers/dataController.js:94-96 | `parseInt` of text that is empty after leading whitespace is NaN, and a negative result needs a leading "-" after that whitespace |
| JsRuntime.NatToDecimal | backend/controllers/dataController.js:94 | the decimal text of a number is non-empty, made of digits, and reads back as that number |
| JsRuntime.ParseUnsignedIgnoresSuffix | backend/controllers/dataController.js:81 | a number's digits followed by text that cannot continue the digits or make a hex prefix read back as the number |
| JsRuntime.ParseIntIgnoresSuffix | backend/controllers/dataController.js:118 | `parseInt` of a number's digits followed by such a suffix (for example the ")" that `slice(0, -1)` would have removed) is that number |
| JsRuntime.ParseIntDecimal | backend/controllers/dataController.js:116-120 | `parseInt` of the decimal text of any integer, negative ones included, is that integer |
| Handles.KeepOrReplace | backend/controllers/dataController.js:35-38 | `submitted \|\| current`: a non-empty submitted handle replaces the stored one; a missing or empty one keeps it |
| Handles.MergeHandles | backend/controllers/dataController.js:35-38 | each of the four handles becomes the submitted value unless that is absent, null or "", in which case the stored value stays |
| Handles.MergeFieldwise | backend/controllers/dataController.js:35-38 | each handle is updated independently of the other three |
| Handles.MergeIdempotent | backend/controllers/dataController.js:35-38 | submitting the same body twice has the effect of submitting it once |
| Handles.MergeEmptyBody | backend/controllers/dataController.js:35-38 | a body whose four fields are all absent, null or "" leaves any stored handles unchanged, and only such a body leaves the schema defaults unchanged |
| Handles.MergeNeverClears | backend/controllers/dataController.js:35-38 | a configured handle can be replaced but never cleared by the editor |
| Handles.UserDocument.constructor | backend/models/User.js:18-35 | a new user document has all four handles empty, the schema's defaults |
| Handles.UserDocument.AssignHandles | backend/controllers/dataController.js:35-38 | the in-place assignments leave the document's handles equal to the merge of the old handles with the body |
| Handles.SetPlatformUsernames | backend/controllers/dataController.js:25-47 | a rejected lookup gives 500 "Server error" and changes nothing; no user gives 404 "User not found"; otherwise the handles are merged in place, then the saved handles are sent, or a 500 "Server error" if saving fails |
| Handles.GetProfile | backend/controllers/dataController.js:296-314 | the profile carries exactly the stored handles under the dashboard's names; no user gives a 500 with the handler's message |
| Handles.GetProfileInjective | backend/controllers/dataController.js:301-306 | the renaming loses nothing: different handles give different profiles |
| DataController.Project | backend/controllers/dataController.js:145-152 | the destructured-and-rebuilt object has exactly the listed keys the upstream object defines, with the upstream values |
| DataController.First | backend/controllers/dataController.js:17 | `v[0]` throws exactly on null, is the first element of a non-empty array and `undefined` for an empty one |
| DataController.IsUpcoming | backend/controllers/dataController.js:52 | the filter's test: an object whose `phase` is exactly the string "BEFORE" |
| DataController.FirstUserInfo | backend/controllers/dataController.js:16-20 | `response.data.result[0]` is forwarded; an empty `result` array sends an empty body; a failed request, a missing or null `result` (or a null reply) is a 500 "Server error", and nothing else fails |
| DataController.GetCodeforcesData | backend/controllers/dataController.js:8-22 | a missing user is a 500; an empty handle is a 400 "Codeforces username not set" with no upstream call; otherwise `user.info` is requested for the handle and its first result forwarded |
| DataController.CodeforcesForwardsRecord | backend/controllers/dataController.js:16-17 | with a configured handle, the first upstream record is sent unchanged |
| DataController.UpcomingOnly | backend/controllers/dataController.js:52 | the filter keeps only contests in phase "BEFORE", in upstream order, keeps every one of them, and has as many as there are |
| DataController.UpcomingSubsequenceBound | backend/controllers/dataController.js:52 | no order-preserving selection of upcoming contests is longer than the filter's result |
| DataController.UpcomingOnlyUnique | backend/controllers/dataController.js:52 | an order-preserving selection of upcoming contests that is as long as the count is exactly the filter's result |
| DataController.GetUpcomingCodeforcesContests | backend/controllers/dataController.js:49-58 | the response succeeds exactly when upstream sent a `result` array without null entries, and then holds the upcoming contests; every failure is a 500 "Server error" |
| DataController.UpcomingExample | backend/controllers/dataController.js:52 | of contests in phases BEFORE, CODING and FINISHED only the first is kept |
| DataController.GetCodeChefContests | backend/controllers/dataController.js:135-159 | a status other than "success" is a 500 "Failed to fetch contests"; a failed request or a null reply is a 500 "Server error"; otherwise the sent keys are exactly those of the four contest buckets upstream defines, each with upstream's value |
| DataController.LeetCodeStats | backend/controllers/dataController.js:177-191 | the twelve statistics are copied where upstream defines them; `submissionCalendar` is always present, upstream's when truthy, else `{}` |
| DataController.GetLeetCodeData | backend/controllers/dataController.js:162-198 | an empty handle is a 400 "Leetcode username not set" with no upstream call; otherwise the statistics proxy is requested for the handle, and its reply's projection is sent; once requested, every failure (failed request or null reply) is a 500 "Failed to fetch LeetCode stats" |
| DataController.GetGFGData | backend/controllers/dataController.js:250-276 | an empty handle is a 400 "gfg username not set" with no upstream call; otherwise the statistics API is requested for the handle, and its reply is forwarded unchanged, or a 500 with a JSON error |
| CodeChefProfile.RankValue | backend/controllers/dataController.js:119-120 | a rank text is `null` exactly when it is "NA", otherwise its `parseInt` |
| CodeChefProfile.HistoryEntry | backend/controllers/dataController.js:88-97 | one history record: the trimmed first cell as the name, `parseInt` of the second as the rating, and the rank rule on the third and fourth |
| CodeChefProfile.ContestHistory | backend/controllers/dataController.js:85-99 | one record per table row after the header row, record i from row i + 1, and none for a table of at most one row |
| CodeChefProfile.RankExamples | backend/controllers/dataController.js:95-96 | "NA" becomes `null` and "42" the number 42 |
| CodeChefProfile.HighestRating | backend/controllers/dataController.js:81 | the highest rating is missing (and the handler fails) exactly when the trimmed header has fewer than two spaces |
| CodeChefProfile.HighestRatingOfHeader | backend/controllers/dataController.js:81 | a header of the form "word word 2045)" gives 2045 |
| CodeChefProfile.CollectContestHistory | backend/controllers/dataController.js:85-99 | the loop gives one entry per table row after the header row, entry i from row i + 1 |
| CodeChefProfile.ProblemLink | backend/controllers/dataController.js:109 | a problem link is the site's base URL followed by the href, or by "undefined" when there is none |
| CodeChefProfile.LastWithHeading | backend/controllers/dataController.js:105-106 | finds the last article whose trimmed heading is the category |
| CodeChefProfile.FullySolvedLastWins | backend/controllers/dataController.js:103-112 | the dictionary has a key for exactly the trimmed article headings, and a heading that repeats keeps only its last article's problems |
| CodeChefProfile.SolvedListLinks | backend/controllers/dataController.js:107-111 | one record per problem entry, in order, each with its trimmed name and its link |
| CodeChefProfile.SolvedProblemOf | backend/controllers/dataController.js:108-110 | one pushed problem record: the trimmed anchor text and `ProblemLink` of its href |
| CodeChefProfile.FullySolved | backend/controllers/dataController.js:103-112 | the dictionary after the articles in order, each article resetting its trimmed heading to its own problem list; `FullySolvedLastWins` characterises it |
| CodeChefProfile.CollectFullySolved | backend/controllers/dataController.js:103-112 | the nested loops build exactly the specified dictionary |
| CodeChefProfile.ProfileOf | backend/controllers/dataController.js:79-126 | the page gives a "Success" record with the parsed fields, the contest history `ContestHistory` of the rating rows and the dictionary `FullySolved` of the problem articles, unless the highest-rating header is too short, which is a 500 "Server error" |
| CodeChefProfile.ProfileWithoutSections | backend/controllers/dataController.js:85-112 | a page without a rating table or a problems section still gives a record, with no contests and an empty dictionary |
| CodeChefProfile.CodeChefDataOf | backend/controllers/dataController.js:61-131 | an empty handle is a 400 "CodeChef username not set" with no upstream call; otherwise the user's page is requested, and a failed request is a 500 "Server error" |
| CodeChefProfile.GetCodeChefData | backend/controllers/dataController.js:61-131 | running the scraping loops gives exactly the specified exchange |
| DashboardHelpers.FormatDate | platform_frontend/app/dashboard/page.tsx:71-81 | "N/A" exactly for a missing or zero timestamp; otherwise the instant of the timestamp in seconds |
| DashboardHelpers.DurationHours | platform_frontend/app/dashboard/page.tsx:1041 | the hours shown are the whole hours in the duration, rounded down |
| DashboardHelpers.DurationHoursMonotone | frontend/src/components/Dashboard.js:223 | a longer contest never shows fewer hours |
| DashboardHelpers.LevelColor | platform_frontend/app/dashboard/page.tsx:87-92 | a non-empty lower-cased level is green, yellow, red or blue |
| DashboardHelpers.LevelColorOrder | platform_frontend/app/dashboard/page.tsx:88-92 | containing "easy", or being exactly "school" or "basic", is green; past that, yellow exactly when containing "medium"; past that, red exactly when containing "hard"; otherwise blue |
| DashboardHelpers.DifficultyColor | platform_frontend/app/dashboard/page.tsx:84-93 | gray exactly for a missing or empty difficulty; otherwise `LevelColor` of its lower-cased text, so the ordered rule of `LevelColorOrder` applies |
| DashboardHelpers.DifficultyColorIgnoresCase | platform_frontend/app/dashboard/page.tsx:87-88 | the colour does not depend on the label's letter case |
| DashboardHelpers.LeetCodeLevelColors | platform_frontend/app/dashboard/page.tsx:88-91 | the levels "easy", "medium" and "hard" are green, yellow and red |
| DashboardHelpers.OtherLevelColors | platform_frontend/app/dashboard/page.tsx:88-92 | "school" and "basic" are green; a level none of the tests know is blue |
| DashboardHelpers.EasyLabelColor | frontend/src/components/Dashboard.tsx:82-84 | the label "Easy" used by LeetCode and GeeksforGeeks is green |
| DashboardHelpers.MediumLabelColor | frontend/src/components/Dashboard.tsx:82-85 | the label "Medium" is yellow |
| DashboardHelpers.HardLabelColor | frontend/src/components/Dashboard.tsx:82-86 | the label "Hard" is red |
| DashboardHelpers.SchoolLabelColor | frontend/src/components/Dashboard.tsx:82-84 | GeeksforGeeks' label "School" is green |
| DashboardHelpers.BasicLabelColor | frontend/src/components/Dashboard.tsx:82-84 | GeeksforGeeks' label "Basic" is green |
| DashboardHelpers.UnknownLabelColor | frontend/src/components/Dashboard.tsx:79-88 | a label such as "Expert" is blue |
| DashboardHelpers.DifficultyEasyFirst | frontend/src/components/Dashboard.tsx:83-86 | the tests run in order: a label mentioning "easy" is green even if it mentions a harder level |
| DashboardHelpers.PlatformGradient | platform_frontend/app/dashboard/page.tsx:96-109 | "codeforces", "codechef", "leetcode" and "gfg" each get their own brand gradient; any other key gets the default |
| DashboardHelpers.PlatformGradientIdentifies | frontend/src/components/Dashboard.tsx:91-104 | with a default unlike the brand gradients, equal colours mean the same platform or two unknown keys |
| DashboardHelpers.Reverse | platform_frontend/app/dashboard/page.tsx:1023-1024 | `slice().reverse()` has the same length, with item i taken from position n - 1 - i |
| DashboardHelpers.LatestFirst | platform_frontend/app/dashboard/page.tsx:1023-1025 | at most `cap` items, taken from the end of the list, the last first |
| DashboardHelpers.CodeforcesPanel | platform_frontend/app/dashboard/page.tsx:1015-1026 | anything but an array shows "No upcoming contests"; an array, even an empty one, lists its last five contests, the last first |
| DashboardHelpers.CodeChefPanel | platform_frontend/app/dashboard/page.tsx:1060-1072 | contests are listed exactly when `future_contests` is a non-empty array, and then its first five in their own order |
| DashboardHelpers.CodeforcesPanelExample | frontend/src/components/Dashboard.tsx:842-853 | of seven contests the Codeforces panel shows the last five, the last first |
| DashboardHelpers.CodeChefPanelExample | frontend/src/components/Dashboard.tsx:887-899 | of seven contests the CodeChef panel shows the first five, in order |
| DashboardHelpers.PotdSlugChain | frontend/src/components/Dashboard.tsx:338 | the optional chain to `titleSlug` yields the slug exactly when every record on the way is an object holding the next key |
| DashboardHelpers.OptionalChain | platform_frontend/app/dashboard/page.tsx:448 | `?.` short-circuits: reading on from `undefined`, or from `null` with keys left, gives `undefined` |
| DashboardHelpers.PotdSlug | platform_frontend/app/dashboard/page.tsx:448-449 | the slug read through `data`, `activeDailyCodingChallengeQuestion` and `question`, each an object holding the next key, whatever other keys they hold |
| JsRuntime.ToJsString | frontend/src/components/Dashboard.js:344 | the text a template literal gives a value: a string is its own text |
| DashboardHelpers.PotdUrl | platform_frontend/app/dashboard/page.tsx:447-451 | a truthy `titleSlug` links to the LeetCode problems URL followed by the slug; a missing or falsy slug links to "#" |
| DashboardHelpers.PotdUrlOfSlug | frontend/src/components/Dashboard.tsx:337-341 | any reply, whatever other keys its records hold, whose question has a string slug links to that problem; an empty slug links to "#" |
| DashboardHelpers.PotdUrlWithoutData | platform_frontend/app/dashboard/page.tsx:447-451 | a reply without `data`, such as the initial `{}` or a failure's `{ error }`, links to "#" |
| PlatformDashboard.PlatformColor | platform_frontend/app/dashboard/page.tsx:96-109 | the indigo default exactly for keys other than the four platforms |
| PlatformDashboard.PlatformColorIdentifies | platform_frontend/app/dashboard/page.tsx:96-109 | equal colours mean the same platform or two unknown keys |
| DashboardTsx.PlatformColor | frontend/src/components/Dashboard.tsx:91-104 | the purple default exactly for keys other than the four platforms |
| DashboardTsx.PlatformColorIdentifies | frontend/src/components/Dashboard.tsx:91-104 | equal colours mean the same platform or two unknown keys |
| DashboardJs.FalsyChild | frontend/src/components/Dashboard.js:219 | a falsy value ending an `&&` chain renders "0" exactly when it is the number 0, otherwise nothing |
| DashboardJs.CodeforcesContestsCard | frontend/src/components/Dashboard.js:219 | an array gives cards for its last three contests, the last first; any other value gives no card, and 0 renders "0" |
| DashboardJs.CodechefContestsCard | frontend/src/components/Dashboard.js:261 | an array `future_contests` is listed whole, in order and without a cap; a falsy one renders as that falsy value; no `future_contests` lists nothing; rendering throws exactly when `contests` is null or `future_contests` is truthy but not an array |
| DashboardJs.StatsCardBody | frontend/src/components/Dashboard.js:195-196 | a truthy `error` replaces the statistics with that error; null data throws |
| DashboardJs.InitialAndFailedStates | frontend/src/components/Dashboard.js:237-238 | the initial `{}` shows statistics, no contests and a "#" link; a fetch failure's `{ error }` shows the error and no contests |
| DashboardJs.PotdHref | frontend/src/components/Dashboard.js:344 | the link is "#" exactly when the reply, its `data` or its `activeDailyCodingChallengeQuestion` is falsy; past those, rendering throws exactly when `question` is missing or null; otherwise the link is under the LeetCode problems URL |
| DashboardJs.PotdHrefOfSlug | frontend/src/components/Dashboard.js:344 | a reply with a slug links to the problems URL followed by the slug's text, whatever other keys its records hold (an empty slug included) |
| DashboardJs.PotdWithoutSlug | frontend/src/components/Dashboard.js:344 | any reply whose `data`, daily challenge and `question` are objects, whatever other keys they hold, with no slug in `question` links to ".../problems/undefined" here, where the TypeScript dashboards link to "#" |
| DashboardJs.PotdWithoutQuestion | frontend/src/components/Dashboard.js:344 | a daily challenge without a question record makes the card throw while rendering |

## Left out

- I/O is not modelled: the database, HTTP requests, HTML parsing, logging and React rendering. Their results are parameters: the stored handles, `Fetched` replies and the selected page texts.
- Authentication and the Express routing that calls the handlers are not part of this model.
- `getUpcomingCodeforcesContests` and `getCodeChefContests` request one fixed URL and read no stored handle. The model starts from the reply and does not record those URLs.
- `getLeetCodePOTD` and `getGFGPOTD` forward an upstream reply unchanged. Their GraphQL query and URL are constants with no logic, and they are not modelled.
- `getProfile`'s lookup is modelled as present or missing. A lookup that rejects ends in the same `catch`, and the model does not tell the two apart.
- Numbers are integers. Fractional values, such as the acceptance rate, and `parseInt`'s rounding of very long digit runs to a double are not modelled.
- `Math.floor(durationSeconds / 3600)` on a non-numeric duration is not modelled.
- `toLowerCase` maps ASCII letters only.
- Whitespace in `trim` follows the ECMAScript list; no Unicode normalisation is modelled.
- `Intl.DateTimeFormat`, `toLocaleString` and `toFixed` are not modelled. `FormatDate` returns the instant, not its text.
- JSON objects are maps, so key order in the sent JSON is not modelled.
- `__proto__` and other inherited properties are not modelled: a key is defined only when it is an own key.
- Handles.SetPlatformUsernames: request-body values are strings or absent. Mongoose's casting of other JSON types is not modelled.
- DashboardHelpers.DifficultyColor: a difficulty is a string or missing. A non-string truthy value, on which `toLowerCase` would throw, is not modelled.
- The dashboards' `gfgPOTD` link and the problem cards' other fields are plain pass-through and are not modelled.
- `slice()` makes a copy before `reverse()`. Under value semantics the "state is not mutated" property holds by construction, so it is not stated.
