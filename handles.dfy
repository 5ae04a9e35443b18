/** The four platform handles stored on a user document, how the profile
    editor's request updates them, and how the profile endpoint renames them. */
module Handles {
  import opened JsRuntime
  import opened Http

  /** `user.platforms`: one handle per platform; "" means "not configured". */
  datatype Platforms = Platforms(codeforces: string, codechef: string, leetcode: string, gfg: string)

  /** The schema's defaults: every handle empty. */
  const DefaultPlatforms := Platforms("", "", "", "")

  /** The request body of the profile editor; a field is None when the body
      leaves it out or sends null. */
  datatype UsernamesBody = UsernamesBody(
    codeforces: Option<string>, codechef: Option<string>,
    leetcode: Option<string>, gfg: Option<string>)

  /** `submitted || current` for one handle. */
  function KeepOrReplace(submitted: Option<string>, current: string): (r: string)
    ensures submitted.Some? && submitted.value != "" ==> r == submitted.value
    ensures submitted.None? || submitted.value == "" ==> r == current
  {
    if submitted.Some? && submitted.value != "" then submitted.value else current
  }

  /** The handles after the profile editor's update, field by field. */
  function MergeHandles(stored: Platforms, body: UsernamesBody): (r: Platforms)
    ensures r.codeforces == if Blank(body.codeforces) then stored.codeforces else body.codeforces.value
    ensures r.codechef == if Blank(body.codechef) then stored.codechef else body.codechef.value
    ensures r.leetcode == if Blank(body.leetcode) then stored.leetcode else body.leetcode.value
    ensures r.gfg == if Blank(body.gfg) then stored.gfg else body.gfg.value
  {
    Platforms(
      KeepOrReplace(body.codeforces, stored.codeforces),
      KeepOrReplace(body.codechef, stored.codechef),
      KeepOrReplace(body.leetcode, stored.leetcode),
      KeepOrReplace(body.gfg, stored.gfg))
  }

  /** Each handle is updated on its own: a field of the result depends only on
      the same field of the stored handles and of the body. */
  lemma MergeFieldwise(p: Platforms, q: Platforms, body: UsernamesBody)
    ensures p.codeforces == q.codeforces ==> MergeHandles(p, body).codeforces == MergeHandles(q, body).codeforces
    ensures p.codechef == q.codechef ==> MergeHandles(p, body).codechef == MergeHandles(q, body).codechef
    ensures p.leetcode == q.leetcode ==> MergeHandles(p, body).leetcode == MergeHandles(q, body).leetcode
    ensures p.gfg == q.gfg ==> MergeHandles(p, body).gfg == MergeHandles(q, body).gfg
  {
  }

  /** Sending the same body twice has the effect of sending it once. */
  lemma MergeIdempotent(p: Platforms, body: UsernamesBody)
    ensures MergeHandles(MergeHandles(p, body), body) == MergeHandles(p, body)
  {
  }

  /** A submitted field that `||` treats as absent: left out, null or "". */
  predicate Blank(submitted: Option<string>)
  {
    submitted.None? || submitted.value == ""
  }

  /** A body without any non-empty handle leaves the stored handles as they
      are, and only such a body leaves every set of stored handles alone. */
  lemma MergeEmptyBody(p: Platforms, body: UsernamesBody)
    ensures Blank(body.codeforces) && Blank(body.codechef) && Blank(body.leetcode) && Blank(body.gfg)
            ==> MergeHandles(p, body) == p
    ensures MergeHandles(DefaultPlatforms, body) == DefaultPlatforms
            ==> Blank(body.codeforces) && Blank(body.codechef) && Blank(body.leetcode) && Blank(body.gfg)
  {
  }

  /** A configured handle can be replaced but never cleared by the editor. */
  lemma MergeNeverClears(p: Platforms, body: UsernamesBody)
    ensures p.codeforces != "" ==> MergeHandles(p, body).codeforces != ""
    ensures p.codechef != "" ==> MergeHandles(p, body).codechef != ""
    ensures p.leetcode != "" ==> MergeHandles(p, body).leetcode != ""
    ensures p.gfg != "" ==> MergeHandles(p, body).gfg != ""
  {
  }

  /** The stored user document, whose handle fields the editor assigns in place. */
  class UserDocument {
    var codeforces: string
    var codechef: string
    var leetcode: string
    var gfg: string

    /** The document's `platforms` sub-object as a value. */
    function Handles(): Platforms
      reads this
    {
      Platforms(codeforces, codechef, leetcode, gfg)
    }

    /** A new document carries the schema's default handles. */
    constructor ()
      ensures Handles() == DefaultPlatforms
    {
      codeforces, codechef, leetcode, gfg := "", "", "", "";
    }

    /** Assign `user.platforms.x = x || user.platforms.x` for each platform. */
    method AssignHandles(body: UsernamesBody)
      modifies this
      ensures Handles() == MergeHandles(old(Handles()), body)
    {
      codeforces := KeepOrReplace(body.codeforces, codeforces);
      codechef := KeepOrReplace(body.codechef, codechef);
      leetcode := KeepOrReplace(body.leetcode, leetcode);
      gfg := KeepOrReplace(body.gfg, gfg);
    }
  }

  /** The `setPlatformUsernames` handler. `lookupRejected` says whether
      `User.findById` rejected, `user` is the document it resolved to (null
      when none), `saved` whether `user.save()` succeeded. A rejected lookup
      gives 500 and changes nothing; a missing user gives 404; otherwise the
      handles are merged in place and the new handles are returned, or 500 if
      saving failed. */
  method SetPlatformUsernames(lookupRejected: bool, user: UserDocument?, body: UsernamesBody, saved: bool)
    returns (r: Response<Platforms>)
    modifies user
    ensures lookupRejected ==> r == Failed(500, ServerError) && (user != null ==> unchanged(user))
    ensures !lookupRejected && user == null ==> r == Failed(404, MsgJson("User not found"))
    ensures !lookupRejected && user != null ==> user.Handles() == MergeHandles(old(user.Handles()), body)
    ensures !lookupRejected && user != null && saved ==> r == Ok(user.Handles())
    ensures !lookupRejected && user != null && !saved ==> r == Failed(500, ServerError)
  {
    if lookupRejected {
      return Failed(500, ServerError);
    }
    if user == null {
      return Failed(404, MsgJson("User not found"));
    }
    user.AssignHandles(body);
    if saved {
      r := Ok(user.Handles());
    } else {
      r := Failed(500, ServerError);
    }
  }

  /** The `getProfile` response: the stored handles under the dashboard's names. */
  datatype ProfileView = ProfileView(leetCode: string, codeforces: string, codechef: string, geeksForGeeks: string)

  /** `getProfile`: rename `leetcode` to `leetCode` and `gfg` to
      `geeksForGeeks`; a missing user makes `user.platforms` throw, which the
      handler answers with its (mislabelled) POTD error text. */
  function GetProfile(user: Option<Platforms>): (r: Response<ProfileView>)
    ensures user.None? ==> r == Failed(500, PlainText("Failed to fetch LeetCode POTD"))
    ensures user.Some? ==> r.Ok? && ProfileHandles(r.body) == user.value
  {
    match user
    case None => Failed(500, PlainText("Failed to fetch LeetCode POTD"))
    case Some(p) => Ok(ProfileView(p.leetcode, p.codeforces, p.codechef, p.gfg))
  }

  /** Reading the renamed record back into handles (the dashboard's view). */
  function ProfileHandles(v: ProfileView): Platforms
  {
    Platforms(v.codeforces, v.codechef, v.leetCode, v.geeksForGeeks)
  }

  /** The renaming loses nothing: distinct handle sets give distinct profiles. */
  lemma GetProfileInjective(p: Platforms, q: Platforms)
    ensures GetProfile(Some(p)) == GetProfile(Some(q)) ==> p == q
  {
    assert ProfileHandles(GetProfile(Some(p)).body) == p;
    assert ProfileHandles(GetProfile(Some(q)).body) == q;
  }
}
