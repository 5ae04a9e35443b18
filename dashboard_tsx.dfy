/** The dashboard component of `frontend/src/components/Dashboard.tsx`: its
    platform colour. The rest of its display rules are the ones it shares with
    `platform_frontend/app/dashboard/page.tsx`, in module DashboardHelpers. */
module DashboardTsx {
  import opened DashboardHelpers

  const DefaultGradient := "bg-gradient-to-r from-purple-600 to-purple-400"

  /** `getPlatformColor(platform)`: a brand gradient for each of the four
      known platform keys, the purple default for every other key. */
  function PlatformColor(platform: string): (color: string)
    ensures color == DefaultGradient <==> !KnownPlatform(platform)
  {
    assert DefaultGradient[22] == 'p';
    PlatformGradient(platform, DefaultGradient)
  }

  /** The colour tells the platform apart: equal colours mean the same known
      key, or two unknown keys. */
  lemma PlatformColorIdentifies(p: string, q: string)
    requires PlatformColor(p) == PlatformColor(q)
    ensures p == q || (!KnownPlatform(p) && !KnownPlatform(q))
  {
    assert DefaultGradient[22] == 'p';
    PlatformGradientIdentifies(p, q, DefaultGradient);
  }
}
