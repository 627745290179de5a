/**
 Host classification for the dashboard's root layout: the reserved app-subdomain list,
 the tenant label of a host (`getSubdomain`) and the custom-domain test
 (`isURLCustomDomain`). A host is the URL's `host` string, a `seq<char>`.
 */
module Hosts {
  import opened Options
  import opened Strings

  /** The host of the main product, never a tenant's custom domain. */
  const PRODUCT_HOST := "classroomio.com"
  /** The preview-deployment host, never a tenant's custom domain. */
  const PREVIEW_HOST := "vercel.app"
  /** Hosts containing this text are local development servers. */
  const LOCALHOST := "localhost"
  /** The prefix removed from a host before it is parsed. */
  const WWW := "www."

  /**
   `APP_SUBDOMAINS`: the comma-separated `PRIVATE_APP_SUBDOMAINS` setting split into
   labels, or no labels when the setting is absent. A setting that is present but
   empty gives one empty label.
   */
  function AppSubdomains(raw: Option<string>): (r: seq<string>)
    ensures raw.None? <==> r == []
    ensures raw.Some? ==> Join(r, ',') == raw.value
    ensures forall k :: 0 <= k < |r| ==> ',' !in r[k]
    ensures raw == Some("") ==> r == [""]
  {
    match raw
    case None => []
    case Some(v) => Split(v, ',')
  }

  /** The host with its leftmost `www.` removed, wherever in the host it stands. */
  function StripWww(host: string): string {
    ReplaceFirst(host, WWW, "")
  }

  /** The dot-separated labels of a host. */
  function Labels(host: string): seq<string> {
    Split(host, '.')
  }

  /**
   The index of the rightmost label that is not a reserved app subdomain: the
   right-to-left scan over the labels in front of the base host.
   */
  function RightmostUnreserved(labels: seq<string>, reserved: seq<string>): (r: Option<nat>)
    ensures r.Some? ==> r.value < |labels| && labels[r.value] !in reserved
    ensures r.Some? ==> forall j :: r.value < j < |labels| ==> labels[j] in reserved
    ensures r.None? <==> forall j :: 0 <= j < |labels| ==> labels[j] in reserved
    decreases |labels|
  {
    if |labels| == 0 then None
    else if labels[|labels| - 1] !in reserved then Some(|labels| - 1)
    else RightmostUnreserved(labels[..|labels| - 1], reserved)
  }

  /**
   The tenant label of an already `www.`-stripped host: the host must end with the
   base host `appHost` (a character-level test), the labels in front of the base are
   the first (label count of the host) - (label count of the base) labels, and the
   rightmost of those that is not reserved is the tenant.
   */
  function SubdomainOf(host: string, appHost: string, reserved: seq<string>): Option<string> {
    if appHost != "" && EndsWith(host, appHost) then
      var parts := Labels(host);
      var n := |parts| - |Labels(appHost)|;
      if n > 0 then
        match RightmostUnreserved(parts[..n], reserved)
        case Some(i) => Some(parts[i])
        case None => None
      else None
    else None
  }

  /** `getSubdomain`: the tenant label of a request host, or None (the source's `null`). */
  function GetSubdomain(host: string, appHost: string, reserved: seq<string>): (r: Option<string>)
    ensures appHost == "" ==> r.None?
    ensures !EndsWith(StripWww(host), appHost) ==> r.None?
    ensures |Labels(StripWww(host))| <= |Labels(appHost)| ==> r.None?
    ensures r.Some? ==> '.' !in r.value && r.value !in reserved
    ensures r.Some? ==>
      var parts := Labels(StripWww(host));
      var n := |parts| - |Labels(appHost)|;
      exists i :: 0 <= i < n && parts[i] == r.value && forall j :: i < j < n ==> parts[j] in reserved
    ensures r.None? && appHost != "" && EndsWith(StripWww(host), appHost) ==>
      var parts := Labels(StripWww(host));
      var n := |parts| - |Labels(appHost)|;
      forall j :: 0 <= j < n ==> parts[j] in reserved
  {
    SubdomainOf(StripWww(host), appHost, reserved)
  }

  /** The tenant of `labels` written in front of a base host is the rightmost unreserved label. */
  lemma TenantOfLabels(labels: seq<string>, appHost: string, reserved: seq<string>)
    requires |labels| >= 1 && appHost != ""
    requires forall k :: 0 <= k < |labels| ==> '.' !in labels[k]
    ensures SubdomainOf(Join(labels, '.') + "." + appHost, appHost, reserved)
         == match RightmostUnreserved(labels, reserved)
            case Some(i) => Some(labels[i])
            case None => None
  {
    var host := Join(labels, '.') + "." + appHost;
    SplitJoinAppend(labels, appHost, '.');
    var parts := Labels(host);
    assert parts == labels + Labels(appHost);
    assert parts[..|labels|] == labels;
    assert host[|host| - |appHost|..] == appHost;
  }

  /** A leading `www.` is dropped: `www.acme.<base>` belongs to tenant `acme`. */
  lemma WwwPrefixIsStripped(tenant: string, appHost: string, reserved: seq<string>)
    requires appHost != "" && '.' !in tenant && tenant !in reserved
    ensures GetSubdomain(WWW + tenant + "." + appHost, appHost, reserved) == Some(tenant)
  {
    var rest := tenant + "." + appHost;
    assert WWW + tenant + "." + appHost == WWW + rest;
    assert (WWW + rest)[|WWW|..] == rest;
    assert StripWww(WWW + rest) == rest;
    assert Join([tenant], '.') == tenant;
    TenantOfLabels([tenant], appHost, reserved);
  }

  /**
   Only the first `www.` is dropped: in `www.www.acme.<base>` the second `www` stays a
   label, and becomes the tenant when `acme` is reserved.
   */
  lemma OnlyFirstWwwIsStripped(tenant: string, appHost: string, reserved: seq<string>)
    requires appHost != "" && '.' !in tenant && "www" !in reserved
    ensures GetSubdomain(WWW + WWW + tenant + "." + appHost, appHost, reserved)
         == if tenant in reserved then Some("www") else Some(tenant)
  {
    var rest := "www" + "." + tenant + "." + appHost;
    assert WWW + WWW + tenant + "." + appHost == WWW + rest;
    assert (WWW + rest)[|WWW|..] == rest;
    assert StripWww(WWW + rest) == rest;
    assert Join(["www", tenant], '.') == "www" + "." + tenant;
    assert rest == Join(["www", tenant], '.') + "." + appHost;
    TenantOfLabels(["www", tenant], appHost, reserved);
  }

  /** Reserved app labels are skipped: `acme.app.<base>` with `app` reserved belongs to `acme`. */
  lemma ReservedLabelIsSkipped(org: string, app: string, appHost: string, reserved: seq<string>)
    requires appHost != "" && '.' !in org && '.' !in app
    requires org !in reserved && app in reserved
    requires !Contains(org + "." + app + "." + appHost, WWW)
    ensures GetSubdomain(org + "." + app + "." + appHost, appHost, reserved) == Some(org)
  {
    assert Join([org, app], '.') == org + "." + app;
    TenantOfLabels([org, app], appHost, reserved);
  }

  /**
   The base-host test is on characters, the count on labels: with base `acme.base.io`,
   the host `foo.xacme.base.io` ends with the base and has one tenant more, so it
   belongs to tenant `foo`.
   */
  lemma SuffixTestIsCharacterLevel(tenant: string, x: string, appHost: string, reserved: seq<string>)
    requires appHost != "" && '.' !in tenant && '.' !in x && tenant !in reserved
    requires !Contains(tenant + "." + x + appHost, WWW)
    ensures GetSubdomain(tenant + "." + x + appHost, appHost, reserved) == Some(tenant)
  {
    var host := tenant + "." + x + appHost;
    assert host == tenant + "." + (x + appHost);
    SplitCons(tenant, x + appHost, '.');
    SplitPrefix(x, appHost, '.');
    var parts := Labels(host);
    assert |parts| == 1 + |Labels(appHost)|;
    assert parts[..1] == [tenant];
    assert host[|host| - |appHost|..] == appHost;
  }

  /** An occurrence of a non-empty `t` starts with `t`'s first character. */
  lemma OccursAtFirst(s: string, t: string, i: int)
    requires OccursAt(s, t, i) && |t| > 0
    ensures s[i] == t[0] && t[0] in s
  {
  }

  /** A host without the letter `w` contains no `www.` and is left as it is. */
  lemma NoWwwWithoutW(host: string)
    requires 'w' !in host
    ensures !Contains(host, WWW) && StripWww(host) == host
  {
    forall i | OccursAt(host, WWW, i)
      ensures false
    {
      OccursAtFirst(host, WWW, i);
    }
  }

  /** A `www.` preceded only by text without `w` is the leftmost one, wherever it stands. */
  lemma StripEmbeddedWww(first: string, rest: string)
    requires 'w' !in first
    ensures StripWww(first + WWW + rest) == first + rest
  {
    var host := first + WWW + rest;
    assert OccursAt(host, WWW, |first|) by {
      assert host[|first|..|first| + |WWW|] == WWW;
    }
    forall j | 0 <= j < |first|
      ensures !OccursAt(host, WWW, j)
    {
      assert host[j] == first[j];
    }
    var i := IndexOf(host, WWW).value;
    assert i == |first|;
    assert host[..i] == first && host[i + |WWW|..] == rest;
    assert first + "" + rest == first + rest;
  }

  /**
   The `www.` removed need not lead the host: in `shopwww.<base>` it ends the first
   label, so the stripped host `shop<base>` has no label in front of the base and no
   tenant, although `shopwww` is an ordinary label.
   */
  lemma EmbeddedWwwHidesTenant(first: string, appHost: string, reserved: seq<string>)
    requires appHost != "" && 'w' !in first && '.' !in first
    ensures GetSubdomain(first + WWW + appHost, appHost, reserved) == None
  {
    StripEmbeddedWww(first, appHost);
    var stripped := first + appHost;
    SplitPrefix(first, appHost, '.');
    assert |Labels(stripped)| == |Labels(appHost)|;
  }

  /** With base `acme.base.io`, the host `foo.xacme.base.io` belongs to tenant `foo`. */
  lemma FooXAcmeBelongsToFoo()
    ensures GetSubdomain("foo.xacme.base.io", "acme.base.io", []) == Some("foo")
  {
    var tenant, x, base := "foo", "x", "acme.base.io";
    var host := tenant + "." + x + base;
    assert host == "foo.xacme.base.io";
    assert 'w' !in host;
    NoWwwWithoutW(host);
    SuffixTestIsCharacterLevel(tenant, x, base, []);
  }

  /** The non-empty hosts of a list, in order: `.filter(Boolean)` on strings. */
  function NonEmpty(hosts: seq<string>): (r: seq<string>)
    ensures forall h :: h in r <==> h in hosts && h != ""
    ensures |r| <= |hosts|
  {
    if |hosts| == 0 then []
    else if hosts[0] == "" then NonEmpty(hosts[1..])
    else [hosts[0]] + NonEmpty(hosts[1..])
  }

  /** `hosts.some(h => host.endsWith(h))`. */
  function EndsWithAny(host: string, hosts: seq<string>): (r: bool)
    ensures r <==> exists h :: h in hosts && EndsWith(host, h)
  {
    if |hosts| == 0 then false
    else EndsWith(host, hosts[0]) || EndsWithAny(host, hosts[1..])
  }

  /**
   `isURLCustomDomain`: a host is a tenant's own domain unless it is a local one or
   ends with the product host, the preview host or the (set) base host.
   */
  function IsURLCustomDomain(host: string, appHost: string): (r: bool)
    ensures Contains(host, LOCALHOST) ==> !r
    ensures r <==>
      && !Contains(host, LOCALHOST)
      && !EndsWith(host, PRODUCT_HOST)
      && !EndsWith(host, PREVIEW_HOST)
      && (appHost == "" || !EndsWith(host, appHost))
  {
    if Contains(host, LOCALHOST) then false
    else !EndsWithAny(host, NonEmpty([appHost, PRODUCT_HOST, PREVIEW_HOST]))
  }
}
