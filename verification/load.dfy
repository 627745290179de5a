/**
 The root layout's server `load` hook as a total function from the deployment
 settings, the request and the answers of the external calls to an outcome: the
 page data returned or the redirect thrown, together with the cookie writes made.
 */
module LayoutLoad {
  import opened Options
  import opened Strings
  import opened Hosts

  /** The organisation record fetched from the backend; only the fields this hook reads. */
  datatype Org = Org(id: string, siteName: string)

  /** The result of a call into code outside this hook: the value it returned, or an exception. */
  datatype Call<+T> = Returned(value: T) | Threw

  /** Deployment settings, read once when the server starts. */
  datatype Env = Env(
    publicIsSelfhosted: string,           // PUBLIC_IS_SELFHOSTED
    privateAppSubdomains: Option<string>, // PRIVATE_APP_SUBDOMAINS, None when unset
    privateAppHost: string,               // PRIVATE_APP_HOST, "" when unset
    blockedSubdomain: seq<string>,        // the blocked-subdomain list
    dev: bool)                            // the framework's development-build flag

  /** The parts of the incoming request the hook reads. */
  datatype Request = Request(
    host: string,                  // url.host
    orgParam: Option<string>,      // the `org` query parameter
    cookies: map<string, string>,  // the request's cookie jar
    acceptLanguage: Option<string>)

  /**
   The answers the external calls give for this request: the organisation looked up
   by site name and by custom domain, the current session's user id, and membership.
   `redirectIsResponse` says whether a redirect the framework throws is a `Response`,
   the test by which the org-subdomain branch lets it escape its own `catch`.
   */
  datatype Oracle = Oracle(
    orgBySiteName: string -> Call<Option<Org>>,
    orgByDomain: string -> Call<Option<Org>>,
    session: Call<Option<string>>,
    isMember: (string, string) -> Call<bool>,
    redirectIsResponse: bool)

  /** The page data handed to the layout. The metadata tags are not modelled. */
  datatype LoadOutput = LoadOutput(
    orgSiteName: string,
    isOrgSite: bool,
    skipAuth: bool,
    org: Option<Org>,
    serverLang: string)

  /** How `load` ends: it returns page data, or it throws a redirect. */
  datatype Ending = Return(output: LoadOutput) | Redirect(status: int, location: string)

  datatype CookieOp = SetCookie(name: string, value: string) | DeleteCookie(name: string) {
    function Name(): string {
      match this
      case SetCookie(n, _) => n
      case DeleteCookie(n) => n
    }
  }

  /** How `load` ends, together with the cookie writes made while computing it, in order. */
  datatype Outcome = Outcome(ending: Ending, cookieOps: seq<CookieOp>)

  const ORG_SITE_COOKIE := "_orgSiteName"
  const DEBUG_PLAY_COOKIE := "debugPlay"
  const PLAY_SUBDOMAIN := "play"
  const TEMPORARY_REDIRECT := 307
  const ORG_NOT_FOUND_URL := "https://app.classroomio.com/404?type=org"
  const MAIN_APP_URL := "https://app.classroomio.com"

  predicate Selfhosted(env: Env) {
    env.publicIsSelfhosted == "true"
  }

  /** `APP_SUBDOMAINS` for these settings. */
  function Reserved(env: Env): seq<string> {
    AppSubdomains(env.privateAppSubdomains)
  }

  /** A JavaScript string that may be `undefined`, taken as a condition. */
  predicate Truthy(v: Option<string>) {
    v.Some? && v.value != ""
  }

  function CookieValue(jar: map<string, string>, name: string): (r: Option<string>)
    ensures r.Some? <==> name in jar
    ensures r.Some? ==> r.value == jar[name]
  {
    if name in jar then Some(jar[name]) else None
  }

  function ApplyCookie(jar: map<string, string>, op: CookieOp): (r: map<string, string>)
    ensures r.Keys == (if op.SetCookie? then jar.Keys + {op.name} else jar.Keys - {op.name})
    ensures op.SetCookie? ==> r[op.name] == op.value
    ensures forall n :: n in jar && n != op.Name() ==> n in r && r[n] == jar[n]
  {
    match op
    case SetCookie(n, v) => jar[n := v]
    case DeleteCookie(n) => jar - {n}
  }

  /**
   A cookie read after a write sees the write: a set cookie reads back its value, a
   deleted one reads as missing, and every other cookie reads as before.
   */
  lemma ReadAfterWrite(jar: map<string, string>, op: CookieOp, name: string)
    ensures op.SetCookie? ==> CookieValue(ApplyCookie(jar, op), op.name) == Some(op.value)
    ensures op.DeleteCookie? ==> CookieValue(ApplyCookie(jar, op), op.name) == None
    ensures name != op.Name() ==> CookieValue(ApplyCookie(jar, op), name) == CookieValue(jar, name)
  {
  }

  /** The accept-language header, or the empty string when it is missing. */
  function ServerLang(req: Request): string {
    req.acceptLanguage.GetOr("")
  }

  /** The page data every branch starts from: no organisation, no flags. */
  function DefaultOutput(req: Request): LoadOutput {
    LoadOutput("", false, false, None, ServerLang(req))
  }

  /**
   The selfhosted branch. A redirect thrown for a non-member is caught by the
   surrounding `catch`, which returns the default page data, so this branch never
   redirects: it yields the member's organisation or the default.
   */
  function LoadSelfhosted(env: Env, req: Request, o: Oracle): (r: LoadOutput)
    ensures r.serverLang == ServerLang(req) && !r.skipAuth
    ensures r != DefaultOutput(req) <==>
      && GetSubdomain(req.host, env.privateAppHost, Reserved(env)).Some?
      && GetSubdomain(req.host, env.privateAppHost, Reserved(env)).value != ""
      && o.orgBySiteName(GetSubdomain(req.host, env.privateAppHost, Reserved(env)).value).Returned?
      && o.orgBySiteName(GetSubdomain(req.host, env.privateAppHost, Reserved(env)).value).value.Some?
      && o.session.Returned? && o.session.value.Some?
      && o.isMember(
           o.orgBySiteName(GetSubdomain(req.host, env.privateAppHost, Reserved(env)).value).value.value.id,
           o.session.value.value) == Returned(true)
    ensures r != DefaultOutput(req) ==>
      && r.isOrgSite
      && Some(r.orgSiteName) == GetSubdomain(req.host, env.privateAppHost, Reserved(env))
      && Returned(r.org) == o.orgBySiteName(r.orgSiteName)
  {
    var base := DefaultOutput(req);
    match GetSubdomain(req.host, env.privateAppHost, Reserved(env))
    case None => base
    case Some(sub) =>
      if sub == "" then base
      else
        match o.orgBySiteName(sub)
        case Threw => base
        case Returned(None) => base
        case Returned(Some(org)) =>
          match o.session
          case Threw => base
          case Returned(None) => base
          case Returned(Some(user)) =>
            match o.isMember(org.id, user)
            case Threw => base
            case Returned(false) => base
            case Returned(true) => base.(org := Some(org), isOrgSite := true, orgSiteName := sub)
  }

  /** What the hosted branch computes before it classifies the host. */
  datatype Context = Context(
    isLocalHost: bool,
    cookieOps: seq<CookieOp>,
    orgSiteCookie: Option<string>,
    debugPlay: Option<string>,
    debugMode: bool,
    subdomain: string,
    isDev: bool)

  /**
   The hosted branch's preamble: on a local host a non-empty `org` query parameter
   is written to the `_orgSiteName` cookie, and the cookies are read after that write.
   Debug mode is a non-empty `_orgSiteName` other than `"false"`; a host without a
   tenant label has the empty subdomain.
   */
  function HostedContext(env: Env, req: Request): (c: Context)
    ensures c.isLocalHost <==> Contains(req.host, LOCALHOST)
    ensures c.isDev <==> env.dev || Contains(req.host, LOCALHOST)
    ensures c.isLocalHost && Truthy(req.orgParam) ==>
      c.cookieOps == [SetCookie(ORG_SITE_COOKIE, req.orgParam.value)] && c.orgSiteCookie == req.orgParam
    ensures !(c.isLocalHost && Truthy(req.orgParam)) ==>
      c.cookieOps == [] && c.orgSiteCookie == CookieValue(req.cookies, ORG_SITE_COOKIE)
    ensures c.debugPlay == CookieValue(req.cookies, DEBUG_PLAY_COOKIE)
    ensures c.debugMode <==> Truthy(c.orgSiteCookie) && c.orgSiteCookie.value != "false"
    ensures c.subdomain == GetSubdomain(req.host, env.privateAppHost, Reserved(env)).GetOr("")
  {
    var isLocalHost := Contains(req.host, LOCALHOST);
    var ops := if isLocalHost && Truthy(req.orgParam)
      then [SetCookie(ORG_SITE_COOKIE, req.orgParam.value)] else [];
    var jar := if |ops| == 1 then ApplyCookie(req.cookies, ops[0]) else req.cookies;
    var orgSiteCookie := CookieValue(jar, ORG_SITE_COOKIE);
    var debugPlay := CookieValue(jar, DEBUG_PLAY_COOKIE);
    var debugMode := Truthy(orgSiteCookie) && orgSiteCookie.value != "false";
    var subdomain := GetSubdomain(req.host, env.privateAppHost, Reserved(env)).GetOr("");
    Context(isLocalHost, ops, orgSiteCookie, debugPlay, debugMode, subdomain, env.dev || isLocalHost)
  }

  /**
   A custom domain: the organisation is looked up by the whole host. When it is found
   the page is that organisation's site; a missing organisation or a failed lookup
   gives the default page data.
   */
  function CustomDomainBranch(req: Request, o: Oracle): (r: LoadOutput)
    ensures r.serverLang == ServerLang(req) && !r.skipAuth
    ensures r.isOrgSite <==> o.orgByDomain(req.host).Returned? && o.orgByDomain(req.host).value.Some?
    ensures r.isOrgSite ==>
      r.org == o.orgByDomain(req.host).value && r.orgSiteName == o.orgByDomain(req.host).value.value.siteName
    ensures !r.isOrgSite ==> r == DefaultOutput(req)
  {
    match o.orgByDomain(req.host)
    case Threw => DefaultOutput(req)
    case Returned(None) => DefaultOutput(req)
    case Returned(Some(org)) => DefaultOutput(req).(org := Some(org), isOrgSite := true, orgSiteName := org.siteName)
  }

  /** The site name the org-subdomain branch looks up: the debug cookie in debug mode, else the subdomain. */
  function OrgSiteName(c: Context): string {
    if c.debugMode then c.orgSiteCookie.GetOr("") else c.subdomain
  }

  /**
   An organisation subdomain. The page is an organisation site in debug mode or when
   there is a subdomain. A missing organisation outside development raises the 404
   redirect, which escapes only when the redirect is a `Response`; otherwise it is
   swallowed and the page data built so far is returned. A missing organisation in
   development clears a set `_orgSiteName` cookie. A failed lookup is swallowed.
   The outcome's cookie writes are those this branch adds.
   */
  function OrgSubdomainBranch(req: Request, o: Oracle, c: Context): (r: Outcome)
    ensures r.ending.Redirect? <==>
      o.orgBySiteName(OrgSiteName(c)) == Returned(None) && !c.isDev && o.redirectIsResponse
    ensures r.ending.Redirect? ==> r.ending == Redirect(TEMPORARY_REDIRECT, ORG_NOT_FOUND_URL)
    ensures r.ending.Return? ==>
      && r.ending.output.isOrgSite == (c.debugMode || c.subdomain != "")
      && r.ending.output.orgSiteName == OrgSiteName(c)
      && !r.ending.output.skipAuth
      && r.ending.output.serverLang == ServerLang(req)
      && (r.ending.output.org.Some? <==>
            o.orgBySiteName(OrgSiteName(c)).Returned? && o.orgBySiteName(OrgSiteName(c)).value.Some?)
    ensures r.ending.Return? && r.ending.output.org.Some? ==>
      o.orgBySiteName(OrgSiteName(c)) == Returned(r.ending.output.org)
    ensures r.cookieOps == [] || r.cookieOps == [DeleteCookie(ORG_SITE_COOKIE)]
    ensures r.cookieOps != [] <==>
      o.orgBySiteName(OrgSiteName(c)) == Returned(None) && c.isDev && Truthy(c.orgSiteCookie)
  {
    var out := DefaultOutput(req).(isOrgSite := c.debugMode || c.subdomain != "", orgSiteName := OrgSiteName(c));
    match o.orgBySiteName(out.orgSiteName)
    case Threw => Outcome(Return(out), [])
    case Returned(Some(org)) => Outcome(Return(out.(org := Some(org))), [])
    case Returned(None) =>
      if !c.isDev then
        if o.redirectIsResponse then Outcome(Redirect(TEMPORARY_REDIRECT, ORG_NOT_FOUND_URL), [])
        else Outcome(Return(out), [])
      else if Truthy(c.orgSiteCookie) then Outcome(Return(out), [DeleteCookie(ORG_SITE_COOKIE)])
      else Outcome(Return(out), [])
  }

  /**
   A blocked subdomain: the playground (or the `debugPlay` cookie) skips
   authentication; otherwise, outside development, a subdomain that is not an app
   subdomain is sent to the main app; anything else gets the default page data.
   */
  function BlockedBranch(env: Env, req: Request, c: Context): (r: Ending)
    ensures r.Redirect? <==>
      c.subdomain != PLAY_SUBDOMAIN && c.debugPlay != Some("true") && c.subdomain !in Reserved(env) && !c.isDev
    ensures r.Redirect? ==> r == Redirect(TEMPORARY_REDIRECT, MAIN_APP_URL)
    ensures r.Return? ==> r.output.skipAuth == (c.subdomain == PLAY_SUBDOMAIN || c.debugPlay == Some("true"))
    ensures r.Return? ==> r.output.(skipAuth := false) == DefaultOutput(req)
  {
    if c.subdomain == PLAY_SUBDOMAIN || c.debugPlay == Some("true") then
      Return(DefaultOutput(req).(skipAuth := true))
    else if c.subdomain !in Reserved(env) && !c.isDev then
      Redirect(TEMPORARY_REDIRECT, MAIN_APP_URL)
    else
      Return(DefaultOutput(req))
  }

  /**
   The hosted (multi-tenant) branch: custom domain first, then a subdomain that is
   not blocked (an app subdomain, or an organisation's), then a blocked one.
   */
  function LoadHosted(env: Env, req: Request, o: Oracle): (r: Outcome)
    ensures r.ending.Redirect? ==>
      && !env.dev && !Contains(req.host, LOCALHOST)
      && r.ending.status == TEMPORARY_REDIRECT
      && (r.ending.location == ORG_NOT_FOUND_URL || r.ending.location == MAIN_APP_URL)
    ensures r.ending.Return? ==> r.ending.output.serverLang == ServerLang(req)
    ensures forall k :: 0 <= k < |r.cookieOps| ==> r.cookieOps[k].Name() == ORG_SITE_COOKIE
    ensures forall k :: 0 <= k < |r.cookieOps| && r.cookieOps[k].SetCookie? ==>
      Contains(req.host, LOCALHOST) && Some(r.cookieOps[k].value) == req.orgParam
    ensures r.ending.Return? && r.ending.output.skipAuth ==>
      !IsURLCustomDomain(req.host, env.privateAppHost) && HostedContext(env, req).subdomain in env.blockedSubdomain
    ensures |r.cookieOps| >= |HostedContext(env, req).cookieOps|
    ensures r.cookieOps[..|HostedContext(env, req).cookieOps|] == HostedContext(env, req).cookieOps
  {
    var c := HostedContext(env, req);
    if IsURLCustomDomain(req.host, env.privateAppHost) then
      Outcome(Return(CustomDomainBranch(req, o)), c.cookieOps)
    else if c.subdomain !in env.blockedSubdomain then
      if c.subdomain in Reserved(env) then
        Outcome(Return(DefaultOutput(req)), c.cookieOps)
      else
        var b := OrgSubdomainBranch(req, o, c);
        Outcome(b.ending, c.cookieOps + b.cookieOps)
    else
      Outcome(BlockedBranch(env, req, c), c.cookieOps)
  }

  /**
   `load`. A selfhosted deployment never redirects and writes no cookie; a redirect
   only happens outside development, with status 307, to the 404 page or the main
   app; the only cookie written is `_orgSiteName`, set only from a local host's
   `org` parameter; the language is always the request's.
   */
  function Load(env: Env, req: Request, o: Oracle): (r: Outcome)
    ensures Selfhosted(env) ==> r.ending.Return? && r.cookieOps == []
    ensures r.ending.Redirect? ==>
      && !Selfhosted(env) && !env.dev && !Contains(req.host, LOCALHOST)
      && r.ending.status == TEMPORARY_REDIRECT
      && (r.ending.location == ORG_NOT_FOUND_URL || r.ending.location == MAIN_APP_URL)
    ensures r.ending.Return? ==> r.ending.output.serverLang == ServerLang(req)
    ensures forall k :: 0 <= k < |r.cookieOps| ==> r.cookieOps[k].Name() == ORG_SITE_COOKIE
    ensures forall k :: 0 <= k < |r.cookieOps| && r.cookieOps[k].SetCookie? ==>
      Contains(req.host, LOCALHOST) && Some(r.cookieOps[k].value) == req.orgParam
    ensures r.ending.Return? && r.ending.output.skipAuth ==>
      !Selfhosted(env) && HostedContext(env, req).subdomain in env.blockedSubdomain
  {
    if Selfhosted(env) then Outcome(Return(LoadSelfhosted(env, req, o)), [])
    else LoadHosted(env, req, o)
  }
}
