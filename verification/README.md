# Tenant resolution in the dashboard's root layout

This project models the server `load` hook of the dashboard's root layout
(`apps/dashboard/src/routes/+layout.server.ts`). For every request, the hook decides
which organisation (tenant) the page belongs to, and it does so from the request's host,
an `org` query parameter and two debug cookies. It also decides whether the request is
redirected, and whether authentication is skipped.

The model has four modules:

- `Strings` (`strings.dfy`): the JavaScript string operations the hook uses.
  These are `indexOf`, `includes`, `endsWith`, `replace` with a string pattern, and
  `split` on one character. `Join` is included as the inverse of `split`.
- `Hosts` (`hosts.dfy`): the `APP_SUBDOMAINS` list, `getSubdomain` and `isURLCustomDomain`.
  A host is a `seq<char>`.
- `LayoutLoad` (`load.dfy`): `load` as a total function. Its inputs are the deployment
  settings (`Env`), the request (`Request`) and the answers of the external calls
  (`Oracle`). Its result is an `Outcome`: how the hook ends (an `Ending`: the page data
  returned or the redirect thrown),
  plus the cookie writes made, in order. Each branch of the hook is one function:
  the selfhosted branch, the preamble that reads the cookies, the custom-domain branch,
  the organisation-subdomain branch and the blocked-subdomain branch.
- `LoadProperties` (`load_properties.dfy`): lemmas that follow one request through
  those branches.

The external calls are inputs to the model:

- the organisation lookup by site name and the lookup by custom domain (`getCurrentOrg`);
- the session (`auth.getSession`);
- membership (`isUserOrgMember`).

Each call either returns a value or throws (`Call<T> = Returned(v) | Threw`).
The hook re-throws a caught redirect only when `error instanceof Response` holds, and the
framework's redirect type is not part of this model. So that test is an input too,
`Oracle.redirectIsResponse`, and no property assumes the 404 redirect escapes.

Some behaviours are kept exactly as the code has them:

- `getSubdomain` tests the base host with a character-level `endsWith`, but it counts
  labels with `split('.')`. With base `acme.base.io`, the host `foo.xacme.base.io` belongs
  to tenant `foo` (`SuffixTestIsCharacterLevel`).
- `replace('www.', '')` removes the leftmost `www.` wherever it stands. In
  `shopwww.<base>` it removes the end of the first label, so that host has no tenant
  (`EmbeddedWwwHidesTenant`).
- In selfhosted mode, the redirect for a non-member is thrown inside the `try`. The
  `catch` returns the default page data, so that branch never redirects.

Outside development, a blocked subdomain redirects to the main app unless it is `play`,
the `debugPlay` cookie is `"true"` (both skip authentication instead), or it is also an
app subdomain (the default page). Outside development, a missing organisation on an
organisation subdomain raises the 404 redirect, and that redirect escapes only when it
is a `Response`; in development the `_orgSiteName` cookie is deleted instead, if set.

## Model

| member | source | states |
|---|---|---|
| Strings.IndexOf | apps/dashboard/src/routes/+layout.server.ts:216 | the index returned is an occurrence of the pattern and no earlier index is one; None means there is no occurrence |
| Strings.Contains | apps/dashboard/src/routes/+layout.server.ts:86 | `includes` holds exactly when the text occurs at some index |
| Strings.EndsWith | apps/dashboard/src/routes/+layout.server.ts:174 | `endsWith` holds exactly when the suffix occurs flush with the end, so the host is some prefix followed by the suffix |
| Strings.ReplaceFirst | apps/dashboard/src/routes/+layout.server.ts:216 | `replace` with a string pattern leaves a string without the pattern unchanged; a leading pattern is swapped for the replacement; otherwise the leftmost occurrence is replaced and the length changes by the difference |
| Strings.Split | apps/dashboard/src/routes/+layout.server.ts:217 | `split` gives at least one part, no part contains the separator, and joining the parts with the separator gives back the string |
| Strings.SplitJoin | apps/dashboard/src/routes/+layout.server.ts:222 | splitting undoes joining when no part contains the separator |
| Strings.SplitJoinAppend | apps/dashboard/src/routes/+layout.server.ts:225 | splitting a host written as labels, a dot and a base host gives those labels followed by the base host's labels |
| Strings.SplitPrefix | apps/dashboard/src/routes/+layout.server.ts:222 | text without a dot in front of a host joins its first label, so the label count does not change |
| Hosts.AppSubdomains | apps/dashboard/src/routes/+layout.server.ts:26 | an unset setting gives no app subdomains; a set one gives comma-free labels that join back to the setting; an empty setting gives the one empty label |
| Hosts.RightmostUnreserved | apps/dashboard/src/routes/+layout.server.ts:235-241 | the index found is of a label not in the reserved list, and every label to its right is reserved; None exactly when every label is reserved |
| Hosts.GetSubdomain | apps/dashboard/src/routes/+layout.server.ts:215-246 | null when the base host is unset, when the www-stripped host does not end with it, or when the host has no more labels than the base; a returned label is dot-free and unreserved, is one of the labels before the base, and every label to its right there is reserved; null on a matching host only when every label before the base is reserved |
| Hosts.TenantOfLabels | apps/dashboard/src/routes/+layout.server.ts:220-241 | for labels written in front of the base host, the tenant is the rightmost unreserved label |
| Hosts.WwwPrefixIsStripped | apps/dashboard/src/routes/+layout.server.ts:216 | `www.acme.<base>` belongs to tenant `acme` when `acme` is not reserved |
| Hosts.OnlyFirstWwwIsStripped | apps/dashboard/src/routes/+layout.server.ts:216-241 | in `www.www.acme.<base>` only the first `www.` is removed; the second `www` is a label, and it becomes the tenant when `acme` is reserved |
| Hosts.ReservedLabelIsSkipped | apps/dashboard/src/routes/+layout.server.ts:230-241 | `acme.app.<base>` with `app` reserved belongs to `acme` |
| Hosts.SuffixTestIsCharacterLevel | apps/dashboard/src/routes/+layout.server.ts:220-225 | the base-host test is on characters: `foo.x<base>` ends with the base and has one label more, so it belongs to `foo` |
| Hosts.FooXAcmeBelongsToFoo | apps/dashboard/src/routes/+layout.server.ts:215-241 | with base `acme.base.io`, the host `foo.xacme.base.io` belongs to tenant `foo` |
| Hosts.NoWwwWithoutW | apps/dashboard/src/routes/+layout.server.ts:216 | a host without the letter `w` contains no `www.` and is left unchanged by the strip |
| Hosts.StripEmbeddedWww | apps/dashboard/src/routes/+layout.server.ts:216 | the leftmost `www.` is removed even when it is not at the start of the host |
| Hosts.EmbeddedWwwHidesTenant | apps/dashboard/src/routes/+layout.server.ts:216-228 | a `www.` that ends the first label is removed, and then the host has no tenant |
| Hosts.NonEmpty | apps/dashboard/src/routes/+layout.server.ts:170-172 | `.filter(Boolean)` keeps exactly the non-empty hosts |
| Hosts.EndsWithAny | apps/dashboard/src/routes/+layout.server.ts:174 | `.some(endsWith)` holds exactly when some listed host is a suffix |
| Hosts.IsURLCustomDomain | apps/dashboard/src/routes/+layout.server.ts:165-175 | false for any host containing `localhost`; otherwise true exactly when the host ends with none of `classroomio.com`, `vercel.app` and a non-empty base host, so an empty base host does not make every host non-custom |
| LayoutLoad.ReadAfterWrite | apps/dashboard/src/routes/+layout.server.ts:92-97 | a read after a write sees the write: a set cookie reads back its value, a deleted cookie reads as missing, and every other cookie reads as it did before the write |
| LayoutLoad.ApplyCookie | apps/dashboard/src/routes/+layout.server.ts:92-94 | a set adds or overwrites only its cookie, a delete removes only its cookie, and every other cookie keeps its value |
| LayoutLoad.LoadSelfhosted | apps/dashboard/src/routes/+layout.server.ts:41-84 | selfhosted mode never skips authentication and keeps the request's language; the page is not the default exactly when there is a non-empty tenant label, its organisation is found, there is a session and the user is a member; then it is that organisation's site under the tenant label |
| LayoutLoad.HostedContext | apps/dashboard/src/routes/+layout.server.ts:86-103 | a local host with a non-empty `org` parameter writes the `_orgSiteName` cookie, and the value read back is the parameter; otherwise nothing is written and the jar's cookie is read; `debugPlay` is the jar's; debug mode means a non-empty cookie other than `"false"`; development means the dev flag or a local host; no tenant gives the empty subdomain |
| LayoutLoad.CustomDomainBranch | apps/dashboard/src/routes/+layout.server.ts:105-123 | the page is an organisation site exactly when the lookup by host finds an organisation, and then it carries that organisation and its site name; otherwise it is the default page |
| LayoutLoad.OrgSubdomainBranch | apps/dashboard/src/routes/+layout.server.ts:131-154 | a redirect happens exactly when the lookup finds nothing outside development and the redirect is a `Response`, and it goes to the 404 page; a returned page is an organisation site in debug mode or with a non-empty subdomain, is named by the cookie in debug mode and by the subdomain otherwise, and carries an organisation exactly when one was found; the `_orgSiteName` cookie is deleted exactly when nothing is found in development and the cookie is set |
| LayoutLoad.BlockedBranch | apps/dashboard/src/routes/+layout.server.ts:155-160 | a redirect to the main app happens exactly when the subdomain is not `play`, `debugPlay` is not `"true"`, the subdomain is not an app subdomain, and the request is not in development; otherwise the default page is returned, with authentication skipped exactly for `play` or `debugPlay` |
| LayoutLoad.LoadHosted | apps/dashboard/src/routes/+layout.server.ts:105-162 | hosted redirects happen only outside development, with status 307, to the 404 page or the main app; every cookie write is to `_orgSiteName`, and a set comes from a local host's `org` parameter; the preamble's writes come first; skipping authentication happens only for a blocked subdomain on a host that is not a custom domain |
| LayoutLoad.Load | apps/dashboard/src/routes/+layout.server.ts:28-163 | selfhosted mode never redirects and writes no cookie; any redirect is hosted, outside development, with status 307, to one of the two fixed URLs; a returned page carries the request's language; only `_orgSiteName` is written, and only set from a local `org` parameter; skipping authentication implies a blocked subdomain |
| LoadProperties.CustomDomainTakesPriority | apps/dashboard/src/routes/+layout.server.ts:105-123 | on a custom domain the outcome ignores the subdomain lists and cookies: the found organisation's site, or the default page on a missing organisation or failed lookup, with no redirect and no cookie write |
| LoadProperties.AppSubdomainNeedsNoLookup | apps/dashboard/src/routes/+layout.server.ts:124-129 | an unblocked app subdomain returns the default page, and the outcome is the same whatever the external calls answer |
| LoadProperties.OrgSubdomainSiteFields | apps/dashboard/src/routes/+layout.server.ts:97-136 | on an organisation subdomain a returned page sets `isOrgSite` to debug mode or a non-empty subdomain, and `orgSiteName` to the cookie in debug mode and the subdomain otherwise |
| LoadProperties.MissingOrgOutsideDev | apps/dashboard/src/routes/+layout.server.ts:139-154 | outside development a missing organisation gives the 404 redirect when the redirect is a `Response`, and otherwise a page without an organisation; no cookie is written |
| LoadProperties.MissingOrgInDevClearsCookie | apps/dashboard/src/routes/+layout.server.ts:145-147 | in development a missing organisation returns a page without an organisation, and it adds exactly a delete of `_orgSiteName` when that cookie is set |
| LoadProperties.LocalOrgParamSelectsSite | apps/dashboard/src/routes/+layout.server.ts:86-99 | on a local host a non-empty `org` parameter other than `"false"` is written first, and it names the organisation site of the returned page |
| LoadProperties.BlockedPlaySkipsAuth | apps/dashboard/src/routes/+layout.server.ts:155-156 | a blocked subdomain on `play`, or with `debugPlay` `"true"`, returns the default page with only `skipAuth` set |
| LoadProperties.BlockedRedirectsOutsideDev | apps/dashboard/src/routes/+layout.server.ts:157-159 | any other blocked subdomain that is not an app subdomain redirects to the main app outside development |

## Left out

- `getBaseMetaTags` (`:177-213`) is not modelled. It is constant data plus WHATWG `URL`
  resolution, and that library is not part of this model. The `baseMetaTags` field of the
  page data is left out. `canonical` and `openGraph.url` are computed by the same
  expression.
- The backend client's initialisation (`:11-13`) is not modelled. The calls
  `getCurrentOrg`, `auth.getSession` and `isUserOrgMember` are oracle inputs.
- `getSession` reporting an error and `getSession` returning no session are one case,
  `Returned(None)`. The code treats both the same way.
- The model assumes that a failed lookup never throws a `Response` object. If one did,
  the `catch` at `:151-153` would re-throw it.
- The `console` output and the `ssr` export (`:15`) are not modelled.
- Cookie options (`path: '/'`) are not modelled, and neither are the framework's cookie,
  header and redirect internals. Cookies are a map from name to value, and a read after a
  set sees the set value. The accept-language header is its value or the empty string.
- The redirect URL at `:69` is not modelled, because that redirect is always caught.
  Reading `PRIVATE_APP_SUBDOMAINS` there when it is unset throws, and that is caught too.
- `PRIVATE_APP_HOST` is a string, and unset is the empty string. Both are falsy at
  `:220`, and both become `''` at `:170`.
- The blocked-subdomain list (`$lib/utils/constants/app`) is not part of this model. It
  is taken to be a list of strings, so `includes` is membership. If it were a single
  string, `includes` would be a substring test.
- `CurrentOrg` has only the two fields the hook reads: `id`, and `siteName` (a missing
  `siteName` is `""`).
- Async sequencing is not modelled, because nothing here runs concurrently.
