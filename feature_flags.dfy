/** Feature flags as the handlers read them, and the feature-flag stack's
    choice of flag configuration for a stage
    (serverless-stack/lib/app/feature-flags/feature-flags.ts). */
module FeatureFlags {
  import opened Wrappers

  /** One flag's content: the `enabled` gate and the optional numeric `limit`. */
  datatype Flag = Flag(enabled: bool, limit: Option<int>)

  /** The object a multi-flag fetch returns: flag name to flag. */
  type FlagSet = map<string, Flag>

  /** The stages that have a flag configuration of their own. */
  const NamedStages: set<string> := {"dev", "staging", "prod"}

  /** The keys of the flag configuration. */
  const ConfigKeys: set<string> := NamedStages + {"feature"}

  /** `[dev, staging, prod].includes(stageName) ? stageName : feature`. */
  function FlagConfigKey(stageName: string): (key: string)
    ensures key in ConfigKeys
    ensures stageName in NamedStages ==> key == stageName
    ensures stageName !in NamedStages ==> key == "feature"
  {
    if stageName in NamedStages then stageName else "feature"
  }

  /** Normalising a key again changes nothing. */
  lemma FlagConfigKeyIdempotent(stageName: string)
    ensures FlagConfigKey(FlagConfigKey(stageName)) == FlagConfigKey(stageName)
  {
  }

  /** The test is exact: case variants of a named stage get the feature configuration. */
  lemma CaseVariantsAreFeature()
    ensures FlagConfigKey("Prod") == "feature"
    ensures FlagConfigKey("DEV") == "feature"
    ensures FlagConfigKey("Staging") == "feature"
    ensures FlagConfigKey("cicd") == "feature"
  {
  }

  /** `environments[stage]`: the flag content deployed for a stage. The
      configuration object is typed to hold all four keys. */
  function FlagContent<C>(environments: map<string, C>, stageName: string): (c: C)
    requires ConfigKeys <= environments.Keys
    ensures stageName in NamedStages ==> c == environments[stageName]
    ensures stageName !in NamedStages ==> c == environments["feature"]
  {
    environments[FlagConfigKey(stageName)]
  }
}
