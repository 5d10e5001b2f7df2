/** The per-site politeness table of the rate limiter. */
module Policies {
  datatype SitePolicy = SitePolicy(rpm: nat, burst: nat, globalRpm: nat, globalBurst: nat, minDelayMs: nat)

  const DEFAULT_POLICY := SitePolicy(20, 5, 120, 20, 0)

  const SITE_POLICIES: map<string, SitePolicy> := map[
    "jobspy" := SitePolicy(6, 2, 20, 5, 500),
    "wellfound" := SitePolicy(15, 4, 60, 15, 0),
    "yc" := SitePolicy(30, 10, 120, 30, 0),
    "hackernews" := SitePolicy(30, 10, 120, 30, 0),
    "openrouter" := SitePolicy(10, 3, 15, 5, 0)
  ]

  function PolicyFor(site: string): SitePolicy {
    if site in SITE_POLICIES then SITE_POLICIES[site] else DEFAULT_POLICY
  }
}
