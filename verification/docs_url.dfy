/**
 The shape of the documentation URL, `<scheme>://<host>:<port>/api/docs`,
 with a parser that reads the three parts back out of such a URL.
 */
module DocsUrl {
  import opened Js
  import opened AppInfo

  /** Where the docs live: TLS or not, host and port as written. */
  datatype Location = Location(secure: bool, host: string, port: string)

  function Scheme(secure: bool): string {
    if secure then "https" else "http"
  }

  function Format(loc: Location): string {
    Scheme(loc.secure) + "://" + loc.host + ":" + loc.port + DocsBasePath
  }

  /** Position of the first ':' in `s`, if any. */
  function FirstColon(s: string): (r: Option<nat>)
    ensures r.Some? ==> r.value < |s| && s[r.value] == ':'
    ensures r.Some? ==> forall j :: 0 <= j < r.value ==> s[j] != ':'
    ensures r.None? ==> forall j :: 0 <= j < |s| ==> s[j] != ':'
  {
    if |s| == 0 then None
    else if s[0] == ':' then Some(0)
    else match FirstColon(s[1..])
      case None => None
      case Some(i) => Some(i + 1)
  }

  predicate HasPrefix(s: string, p: string) {
    |p| <= |s| && s[..|p|] == p
  }

  /**
   Reads a docs URL: the scheme decides `secure`, the text between "://" and
   the docs path splits at its first ':' into host and port.
   */
  function Parse(url: string): (r: Option<Location>)
    ensures r.Some? ==> (r.value.secure <==> HasPrefix(url, "https://"))
    ensures r.Some? ==> ':' !in r.value.host
  {
    var secure := HasPrefix(url, "https://");
    if !secure && !HasPrefix(url, "http://") then None
    else
      var start := if secure then 8 else 7;
      if |url| < start + |DocsBasePath| || url[|url| - |DocsBasePath|..] != DocsBasePath then None
      else
        var authority := url[start..|url| - |DocsBasePath|];
        match FirstColon(authority)
        case None => None
        case Some(i) => Some(Location(secure, authority[..i], authority[i + 1..]))
  }

  /** The scheme of a formatted URL is recognised from its first characters. */
  lemma SchemeOfFormatted(secure: bool, rest: string)
    ensures HasPrefix(Scheme(secure) + "://" + rest, "https://") <==> secure
    ensures HasPrefix(Scheme(secure) + "://" + rest, "http://") || secure
  {
    var url := Scheme(secure) + "://" + rest;
    var scheme := Scheme(secure) + "://";
    assert url[..|scheme|] == scheme;
    if !secure {
      assert url[4] == ':';
    }
  }

  /** Any formatted URL is its scheme, then `host:port`, then the docs path. */
  lemma FormatLayout(loc: Location)
    ensures var scheme := Scheme(loc.secure) + "://"; var url := Format(loc);
      && HasPrefix(url, scheme)
      && |scheme| + |DocsBasePath| <= |url|
      && url[|url| - |DocsBasePath|..] == DocsBasePath
      && url[|scheme|..|url| - |DocsBasePath|] == loc.host + ":" + loc.port
      && (HasPrefix(url, "https://") <==> loc.secure)
      && (HasPrefix(url, "http://") || loc.secure)
  {
    var scheme := Scheme(loc.secure) + "://";
    var authority := loc.host + ":" + loc.port;
    var url := Format(loc);
    assert url == scheme + authority + DocsBasePath;
    assert url == scheme + (authority + DocsBasePath);
    SchemeOfFormatted(loc.secure, authority + DocsBasePath);
    assert url[..|scheme|] == scheme;
    assert url[|url| - |DocsBasePath|..] == DocsBasePath;
    assert url[|scheme|..|url| - |DocsBasePath|] == authority;
  }

  /** In `host:port` with a colon-free host, the first ':' is the separator. */
  lemma FirstColonOfAuthority(host: string, port: string)
    requires ':' !in host
    ensures FirstColon(host + ":" + port) == Some(|host|)
  {
    var authority := host + ":" + port;
    assert authority[|host|] == ':';
    assert forall j :: 0 <= j < |host| ==> authority[j] == host[j];
  }

  /** A URL built from a colon-free host parses back to the same location. */
  lemma ParseFormat(loc: Location)
    requires ':' !in loc.host
    ensures Parse(Format(loc)) == Some(loc)
  {
    FormatLayout(loc);
    FirstColonOfAuthority(loc.host, loc.port);
    var authority := loc.host + ":" + loc.port;
    assert authority[..|loc.host|] == loc.host;
    assert authority[|loc.host| + 1..] == loc.port;
  }
}
