/** The fixed catalog of dream actions. */
module Catalog {

  datatype Tier = Daily | Weekly

  datatype CooldownClass = Light | Recipe

  const LIGHT: seq<string> :=
    ["survey-org", "substrate-health", "inbox-age-report", "state-cleanup", "edges-update", "qmd-refresh"]

  /** Actions that run the full agentic loop; all others have a light or shell runner. */
  const FULL_AGENTIC: seq<string> := ["self-orient", "agentic-housekeeping"]

  const EXPENSIVE: seq<string> := FULL_AGENTIC + ["edges-densify"]

  /** Every entry of the catalog is admitted. */
  const ADMITTED: seq<string> := LIGHT + EXPENSIVE

  predicate Admitted(key: string) {
    key in ADMITTED
  }

  function TierOf(key: string): Tier {
    if key in EXPENSIVE then Weekly else Daily
  }

  function ClassOf(key: string): CooldownClass {
    if key in EXPENSIVE then Recipe else Light
  }
}
