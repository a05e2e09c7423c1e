/** The naming rules of the client stack
    (serverless-stack/lib/app/client/client-stack.ts): the stage label, the
    site and API sub-domains, the runtime configuration's API URL, the
    Route53 alias record and the exported output. */
module ClientNaming {
  import opened Text
  import opened Stages

  /** The names the stack derives from `stageName` and `domainName`. */
  datatype Names = Names(
    stage: string,          // `stageName.toLowerCase()`
    apiSubDomain: string,   // the API's host name
    subDomain: string,      // the site's host name, also the output value
    api: string,            // `api` in the client's `config.json`
    recordName: string,     // the alias record's name
    exportName: string)     // the output's export name

  /** `api.${domain}` for prod, `api.${stageName}.${domain}` otherwise, lower-cased.
      The prod test compares the stage name as given, before lower-casing. */
  function ApiSubDomain(stageName: string, domainName: string): (r: string)
    ensures IsLower(r)
    ensures stageName == Prod ==> r == "api." + Lower(domainName)
    ensures stageName != Prod ==> r == "api." + Lower(stageName) + "." + Lower(domainName)
  {
    if stageName == Prod then
      var s := "api." + domainName;
      LowerIsLower(s);
      LowerAfterPrefix("api.", domainName);
      Lower(s)
    else
      var s := "api." + stageName + "." + domainName;
      LowerIsLower(s);
      assert s == "api." + (stageName + "." + domainName);
      LowerAfterPrefix("api.", stageName + "." + domainName);
      LowerDotted(stageName, domainName);
      Lower(s)
  }

  /** `${domain}` for prod, `${stageName}.${domain}` otherwise, lower-cased. */
  function SubDomain(stageName: string, domainName: string): (r: string)
    ensures IsLower(r)
    ensures stageName == Prod ==> r == Lower(domainName)
    ensures stageName != Prod ==> r == Lower(stageName) + "." + Lower(domainName)
  {
    if stageName == Prod then
      LowerIsLower(domainName);
      Lower(domainName)
    else
      var s := stageName + "." + domainName;
      LowerIsLower(s);
      LowerDotted(stageName, domainName);
      Lower(s)
  }

  /** The API host is always `api.` under the site's host. */
  lemma ApiUnderSite(stageName: string, domainName: string)
    ensures ApiSubDomain(stageName, domainName) == "api." + SubDomain(stageName, domainName)
  {
    if stageName != Prod {
      assert "api." + Lower(stageName) + "." + Lower(domainName) == "api." + (Lower(stageName) + "." + Lower(domainName));
    }
  }

  function ClientNames(stageName: string, domainName: string): (n: Names)
    ensures n.stage == Lower(stageName) && IsLower(n.stage)
    ensures n.subDomain == SubDomain(stageName, domainName) && n.apiSubDomain == ApiSubDomain(stageName, domainName)
    ensures n.apiSubDomain == "api." + n.subDomain
    ensures n.api == "https://api." + n.subDomain
    ensures n.recordName == n.subDomain + "."
    ensures n.exportName == n.stage + "-route53-client-url"
  {
    LowerIsLower(stageName);
    ApiUnderSite(stageName, domainName);
    var api := ApiSubDomain(stageName, domainName);
    var sub := SubDomain(stageName, domainName);
    var stage := Lower(stageName);
    Names(stage, api, sub, "https://" + api, sub + ".", stage + "-route53-client-url")
  }

  /** Only the exact name `prod` gets the bare domain: a case variant such as
      `Prod` has stage label `prod` but keeps the stage prefix. */
  lemma CaseVariantOfProdKeepsPrefix(domainName: string)
    ensures Lower("Prod") == Prod
    ensures SubDomain("Prod", domainName) == "prod." + Lower(domainName)
    ensures SubDomain(Prod, domainName) == Lower(domainName)
  {
    assert "Prod" != Prod by { assert "Prod"[0] != Prod[0]; }
    var l := Lower("Prod");
    assert l == Prod by {
      assert |l| == 4 && l[0] == 'p' && l[1] == 'r' && l[2] == 'o' && l[3] == 'd';
    }
    assert Prod + "." + Lower(domainName) == "prod." + Lower(domainName);
  }

  /** Stages whose lower-case names differ get different sites under the same
      domain, and no stage other than prod takes the bare domain. */
  lemma {:induction false} SubDomainsSeparateStages(s1: string, s2: string, domainName: string)
    requires s1 != Prod
    requires s2 == Prod || Lower(s1) != Lower(s2)
    ensures SubDomain(s1, domainName) != SubDomain(s2, domainName)
  {
    var a := SubDomain(s1, domainName);
    var b := SubDomain(s2, domainName);
    if s2 == Prod {
      assert |a| > |b|;
    } else {
      var n := |Lower(s1)|;
      if |Lower(s2)| == n {
        assert a[..n] == Lower(s1) && b[..n] == Lower(s2);
      } else {
        assert |a| != |b|;
      }
    }
  }
}
