/** The naming rules and the stage condition of serverless-pro's stateless
    stack (serverless-pro/lib/app/stateless/stateless-stack.ts). */
module StatelessNaming {
  import opened Text
  import opened Stages
  import ClientNaming

  /** `https://${domain}` for prod, `https://${stageName}.${domain}` otherwise,
      lower-cased: the web site's origin. */
  function WebsiteSubDomain(stageName: string, domainName: string): (r: string)
    ensures IsLower(r)
    ensures stageName == Prod ==> r == "https://" + Lower(domainName)
    ensures stageName != Prod ==> r == "https://" + Lower(stageName) + "." + Lower(domainName)
  {
    if stageName == Prod then
      var s := "https://" + domainName;
      LowerIsLower(s);
      LowerAfterPrefix("https://", domainName);
      Lower(s)
    else
      var s := "https://" + stageName + "." + domainName;
      LowerIsLower(s);
      assert s == "https://" + (stageName + "." + domainName);
      LowerAfterPrefix("https://", stageName + "." + domainName);
      LowerDotted(stageName, domainName);
      Lower(s)
  }

  /** The domain name of the hosted zone looked up: `${domain}` for prod,
      `${stageName}.${domain}` otherwise, and NOT lower-cased. */
  function HostedZoneDomain(stageName: string, domainName: string): (r: string)
    ensures stageName == Prod ==> r == domainName
    ensures stageName != Prod ==> |r| == |stageName| + 1 + |domainName| && r[..|stageName|] == stageName
    ensures stageName != Prod ==> r[|stageName|..] == "." + domainName
    ensures Lower(r) == ClientNaming.SubDomain(stageName, domainName)
  {
    if stageName == Prod then domainName
    else
      LowerDotted(stageName, domainName);
      assert (stageName + "." + domainName)[..|stageName|] == stageName;
      assert (stageName + "." + domainName)[|stageName|..] == "." + domainName;
      stageName + "." + domainName
  }

  /** `${apiEndpoint}/health-checks`, where the endpoint is the API sub-domain. */
  function HealthCheckUrl(stageName: string, domainName: string): (r: string)
    ensures r == "api." + ClientNaming.SubDomain(stageName, domainName) + "/health-checks"
  {
    ClientNaming.ApiUnderSite(stageName, domainName);
    ClientNaming.ApiSubDomain(stageName, domainName) + "/health-checks"
  }

  /** Canaries, their topics and alarms exist only in staging and prod. */
  predicate CanariesEnabled(stageName: string)
    // only the exact lower-case names qualify; `Prod` or `STAGING` do not
    ensures CanariesEnabled(stageName) ==> IsLower(stageName) && |stageName| >= 4
  {
    stageName == Staging || stageName == Prod
  }

  /** The web site is the client stack's site, reached over https, and the
      API host is the same one the client stack configures. */
  lemma SitesAgreeWithClient(stageName: string, domainName: string)
    ensures WebsiteSubDomain(stageName, domainName) == "https://" + ClientNaming.SubDomain(stageName, domainName)
    ensures "https://" + ClientNaming.ApiSubDomain(stageName, domainName) ==
            ClientNaming.ClientNames(stageName, domainName).api
  {
    if stageName != Prod {
      assert "https://" + Lower(stageName) + "." + Lower(domainName) ==
             "https://" + (Lower(stageName) + "." + Lower(domainName));
    }
  }

  /** The hosted zone keeps the stage's capitals while the sub-domains drop them. */
  lemma HostedZoneKeepsCase(domainName: string)
    ensures HostedZoneDomain("Dev", domainName) != ClientNaming.SubDomain("Dev", domainName)
  {
    var z := HostedZoneDomain("Dev", domainName);
    assert "Dev" != Prod by { assert "Dev"[0] != Prod[0]; }
    assert z[0] == 'D';
    assert ClientNaming.SubDomain("Dev", domainName)[0] == LowerChar('D');
  }

  /** The canary condition is an exact test: the lower-case stages that get
      canaries are exactly the two named ones, and `feature`, `dev` and `cicd`
      do not. */
  lemma CanariesOnlyInStagingAndProd(stageName: string)
    ensures CanariesEnabled(stageName) <==> stageName in {Staging, Prod}
    ensures !CanariesEnabled(Feature) && !CanariesEnabled(Dev) && !CanariesEnabled(Cicd)
    ensures !CanariesEnabled("Prod")
  {
    assert "Prod" != Prod by { assert "Prod"[0] != Prod[0]; }
    assert "Prod" != Staging by { assert "Prod"[0] != Staging[0]; }
    assert Feature != Prod && Feature != Staging by { assert Feature[0] != Prod[0] && Feature[0] != Staging[0]; }
    assert Dev != Prod && Dev != Staging by { assert Dev[0] != Prod[0] && Dev[0] != Staging[0]; }
    assert Cicd != Prod && Cicd != Staging by { assert Cicd[0] != Prod[0] && Cicd[0] != Staging[0]; }
  }
}
