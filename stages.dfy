/** The deployment stages of the pipelines
    (serverless-pro/lib/pipeline/pipeline-types/pipeline-types.ts), and the
    lower-casing of the template literals the stacks build from them. */
module Stages {
  import opened Text

  const Feature: string := "feature"
  const Staging: string := "staging"
  const Prod: string := "prod"
  const Dev: string := "dev"
  const Cicd: string := "cicd"

  /** `${prefix}${name}`.toLowerCase() for a literal prefix that has no
      upper-case letter: the prefix is kept as it is. */
  lemma LowerAfterPrefix(prefix: string, name: string)
    requires IsLower(prefix)
    ensures Lower(prefix + name) == prefix + Lower(name)
  {
    LowerAppend(prefix, name);
    LowerOfLower(prefix);
  }

  /** `${stage}.${domain}`.toLowerCase() lower-cases each part. */
  lemma LowerDotted(stage: string, domain: string)
    ensures Lower(stage + "." + domain) == Lower(stage) + "." + Lower(domain)
  {
    LowerAppend(stage + ".", domain);
    LowerAppend(stage, ".");
    LowerOfLower(".");
  }
}
