/**
 Properties of `load` that follow one request through the branches: the priority of
 the custom-domain test, the lookups an app subdomain skips, the organisation-site
 fields, the 404 and main-app redirects, and the cookie written from a local `org`
 parameter.
 */
module LoadProperties {
  import opened Options
  import opened Strings
  import opened Hosts
  import opened LayoutLoad

  /** The hosted branch, on a host that is not a custom domain. */
  predicate HostedSubdomainRequest(env: Env, req: Request) {
    !Selfhosted(env) && !IsURLCustomDomain(req.host, env.privateAppHost)
  }

  /** ... whose subdomain is not blocked and not an app subdomain: an organisation subdomain. */
  predicate OrgSubdomainRequest(env: Env, req: Request) {
    && HostedSubdomainRequest(env, req)
    && HostedContext(env, req).subdomain !in env.blockedSubdomain
    && HostedContext(env, req).subdomain !in Reserved(env)
  }

  /**
   A custom domain is decided before any subdomain rule: whatever the blocked and
   app-subdomain lists and the cookies say, the page is the domain's organisation
   site when that organisation is found, and the default page otherwise.
   */
  lemma CustomDomainTakesPriority(env: Env, req: Request, o: Oracle)
    requires !Selfhosted(env) && IsURLCustomDomain(req.host, env.privateAppHost)
    ensures Load(env, req, o).cookieOps == []
    ensures Load(env, req, o).ending.Return?
    ensures var out := Load(env, req, o).ending.output;
      && !out.skipAuth
      && (out.isOrgSite <==> o.orgByDomain(req.host).Returned? && o.orgByDomain(req.host).value.Some?)
      && (out.isOrgSite ==> out.org == o.orgByDomain(req.host).value && out.orgSiteName == out.org.value.siteName)
      && (!out.isOrgSite ==> out == DefaultOutput(req))
  {
  }

  /** An app subdomain returns the default page data without consulting any external call. */
  lemma AppSubdomainNeedsNoLookup(env: Env, req: Request, o1: Oracle, o2: Oracle)
    ensures
      && HostedSubdomainRequest(env, req)
      && HostedContext(env, req).subdomain !in env.blockedSubdomain
      && HostedContext(env, req).subdomain in Reserved(env)
      ==>
      && Load(env, req, o1) == Load(env, req, o2)
      && Load(env, req, o1).ending == Return(DefaultOutput(req))
  {
  }

  /**
   On an organisation subdomain the page is an organisation site in debug mode or
   when the subdomain is non-empty, and its site name is the debug cookie in debug
   mode and the subdomain otherwise.
   */
  lemma OrgSubdomainSiteFields(env: Env, req: Request, o: Oracle)
    ensures var c := HostedContext(env, req);
      var r := Load(env, req, o).ending;
      OrgSubdomainRequest(env, req) && r.Return? ==>
        && r.output.isOrgSite == (c.debugMode || c.subdomain != "")
        && r.output.orgSiteName == (if c.debugMode then c.orgSiteCookie.value else c.subdomain)
  {
  }

  /**
   Outside development a missing organisation raises the 404 redirect; whether it
   reaches the framework depends on the redirect being a `Response`, and when it does
   not, the organisation-site fields set before the lookup are returned without an org.
   */
  lemma MissingOrgOutsideDev(env: Env, req: Request, o: Oracle)
    requires OrgSubdomainRequest(env, req)
    requires !env.dev && !Contains(req.host, LOCALHOST)
    requires o.orgBySiteName(OrgSiteName(HostedContext(env, req))) == Returned(None)
    ensures Load(env, req, o).cookieOps == []
    ensures o.redirectIsResponse ==>
      Load(env, req, o).ending == Redirect(TEMPORARY_REDIRECT, ORG_NOT_FOUND_URL)
    ensures !o.redirectIsResponse ==>
      && Load(env, req, o).ending.Return?
      && Load(env, req, o).ending.output.org.None?
      && Load(env, req, o).ending.output.orgSiteName == OrgSiteName(HostedContext(env, req))
  {
  }

  /**
   In development a missing organisation is not a redirect: a set `_orgSiteName`
   cookie is deleted and nothing else changes.
   */
  lemma MissingOrgInDevClearsCookie(env: Env, req: Request, o: Oracle)
    requires OrgSubdomainRequest(env, req)
    requires env.dev || Contains(req.host, LOCALHOST)
    requires o.orgBySiteName(OrgSiteName(HostedContext(env, req))) == Returned(None)
    ensures Load(env, req, o).ending.Return? && Load(env, req, o).ending.output.org.None?
    ensures var c := HostedContext(env, req);
      Load(env, req, o).cookieOps
        == c.cookieOps + (if Truthy(c.orgSiteCookie) then [DeleteCookie(ORG_SITE_COOKIE)] else [])
  {
  }

  /**
   On a local host an `org` query parameter is written to the `_orgSiteName` cookie
   before that cookie is read, so it selects the organisation site; being local, the
   request is never redirected.
   */
  lemma LocalOrgParamSelectsSite(env: Env, req: Request, o: Oracle)
    requires !Selfhosted(env) && Contains(req.host, LOCALHOST)
    requires Truthy(req.orgParam) && req.orgParam.value != "false"
    requires HostedContext(env, req).subdomain !in env.blockedSubdomain
    requires HostedContext(env, req).subdomain !in Reserved(env)
    ensures |Load(env, req, o).cookieOps| >= 1
    ensures Load(env, req, o).cookieOps[0] == SetCookie(ORG_SITE_COOKIE, req.orgParam.value)
    ensures Load(env, req, o).ending.Return?
    ensures Load(env, req, o).ending.output.isOrgSite
    ensures Load(env, req, o).ending.output.orgSiteName == req.orgParam.value
  {
    var c := HostedContext(env, req);
    assert c.debugMode && OrgSiteName(c) == req.orgParam.value;
  }

  /** A blocked subdomain on the playground, or with `debugPlay` set to `"true"`, only skips authentication. */
  lemma BlockedPlaySkipsAuth(env: Env, req: Request, o: Oracle)
    requires HostedSubdomainRequest(env, req)
    requires HostedContext(env, req).subdomain in env.blockedSubdomain
    requires HostedContext(env, req).subdomain == PLAY_SUBDOMAIN
          || HostedContext(env, req).debugPlay == Some("true")
    ensures Load(env, req, o).ending == Return(DefaultOutput(req).(skipAuth := true))
  {
  }

  /** Any other blocked subdomain that is not an app subdomain is sent to the main app outside development. */
  lemma BlockedRedirectsOutsideDev(env: Env, req: Request, o: Oracle)
    ensures
      && HostedSubdomainRequest(env, req)
      && HostedContext(env, req).subdomain in env.blockedSubdomain
      && HostedContext(env, req).subdomain != PLAY_SUBDOMAIN
      && HostedContext(env, req).debugPlay != Some("true")
      && HostedContext(env, req).subdomain !in Reserved(env)
      && !env.dev && !Contains(req.host, LOCALHOST)
      ==>
      Load(env, req, o).ending == Redirect(TEMPORARY_REDIRECT, MAIN_APP_URL)
  {
  }
}
