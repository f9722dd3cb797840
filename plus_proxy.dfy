/**
 * The reverse proxy in front of the Arcádia Plus (Laravel) server
 * (server/plus/proxy.ts): the path rewrite applied to requests under `/plus`,
 * the forwarded headers, the rewrite of `Location` headers in responses, and
 * the classification made by `GET /api/plus/status`.  The upstream host and
 * port are parameters; the proxy middleware, the server launcher and `fetch`
 * are not part of this model (what `fetch` gives is a parameter).
 */
module PlusProxy {
  import opened Wrappers
  import opened Text

  const PlusPrefix: string := "/plus"
  const Home: string := "/empresas"
  /** The development origin that is always rewritten, whatever the configured host and port. */
  const DevOrigin: string := "http://localhost:8080"

  function Origin(host: string, port: nat): string {
    "http://" + host + ":" + NatToString(port)
  }

  /** One leading `/plus` removed (the regular expression `^\/plus`). */
  function StripPlus(path: string): (r: string)
    ensures StartsWith(path, PlusPrefix) ==> PlusPrefix + r == path
    ensures !StartsWith(path, PlusPrefix) ==> r == path
  {
    if StartsWith(path, PlusPrefix) then path[|PlusPrefix|..] else path
  }

  /** The paths the upstream serves as its home page. */
  predicate IsHomePath(rewritten: string) {
    rewritten == "" || rewritten == "/" || rewritten == "/home"
  }

  /** `pathRewrite`: strip `/plus`; the root and `/home` go straight to `/empresas`. */
  function PathRewrite(path: string): (r: string)
    ensures r == Home || EndsWith(path, r)
  {
    var rewritten := StripPlus(path);
    if IsHomePath(rewritten) then Home
    else
      EndsWithConcat(path[..|path| - |rewritten|], rewritten);
      assert path[..|path| - |rewritten|] + rewritten == path;
      rewritten
  }

  /** A request under `/plus` reaches the upstream as the rest of its path, or the home page. */
  lemma PathRewriteUnderPlus(rest: string)
    ensures PathRewrite(PlusPrefix + rest) == if IsHomePath(rest) then Home else rest
  {
    assert (PlusPrefix + rest)[|PlusPrefix|..] == rest;
  }

  /** A path not under `/plus` passes through, unless it is a home path itself. */
  lemma PathRewriteOutsidePlus(path: string)
    requires !StartsWith(path, PlusPrefix)
    ensures PathRewrite(path) == if IsHomePath(path) then Home else path
  {
  }

  /** A response header as Node gives it: absent, one string, or several values. */
  datatype HeaderValue = NoHeader | Str(s: string) | Values(all: seq<string>)

  /** The `X-Forwarded-*` headers set on every proxied request. */
  datatype Forwarded = Forwarded(host: string, proto: string, prefix: string)

  /**
   * `proxyReq`: the host is a string `x-forwarded-host`, else the `host` header, and `localhost`
   * when that is empty or missing; the protocol is a string `x-forwarded-proto`, else `https`.
   */
  function ForwardedHeaders(forwardedHost: HeaderValue, host: Option<string>, forwardedProto: HeaderValue): (f: Forwarded)
    ensures f.host != "" && f.prefix == PlusPrefix
    ensures forwardedHost.Str? && forwardedHost.s != "" ==> f.host == forwardedHost.s
    ensures forwardedHost.Str? && forwardedHost.s == "" ==> f.host == "localhost"
    ensures !forwardedHost.Str? && host.Some? && host.value != "" ==> f.host == host.value
    ensures !forwardedHost.Str? && (host.None? || host.value == "") ==> f.host == "localhost"
    ensures forwardedProto.Str? ==> f.proto == forwardedProto.s
    ensures !forwardedProto.Str? ==> f.proto == "https"
  {
    var chosen := if forwardedHost.Str? then forwardedHost.s else host.GetOr("");
    Forwarded(if chosen == "" then "localhost" else chosen,
              if forwardedProto.Str? then forwardedProto.s else "https",
              PlusPrefix)
  }

  /** `/plus/empresas` and `/plus/home` become `/plus`, keeping the user on the proxy's root. */
  function CollapseHome(location: string): string {
    if location == PlusPrefix + Home || location == "/plus/home" then PlusPrefix else location
  }

  /** A root-relative location outside `/plus` is moved under it. */
  function UnderPlus(location: string): string {
    if StartsWith(location, "/") && !StartsWith(location, PlusPrefix) then PlusPrefix + location else location
  }

  /**
   * The `Location` rewrite of `proxyRes`: the first occurrence of the upstream origin and every
   * occurrence of `http://localhost:8080` become `/plus`, then the location is moved under
   * `/plus` and the home page collapsed.
   */
  function RewriteLocation(location: string, host: string, port: nat): (r: string)
    ensures StartsWith(r, "/") ==> StartsWith(r, PlusPrefix)
  {
    var first := ReplaceFirst(location, Origin(host, port), PlusPrefix);
    var local := ReplaceAll(first, DevOrigin, PlusPrefix);
    MovedStaysUnderPlus(local);
    CollapseHome(UnderPlus(local))
  }

  /** A location moved under `/plus` and collapsed is under `/plus` whenever it is root-relative. */
  lemma MovedStaysUnderPlus(local: string)
    ensures var r := CollapseHome(UnderPlus(local));
      StartsWith(r, "/") ==> StartsWith(r, PlusPrefix)
  {
    var moved := UnderPlus(local);
    if StartsWith(local, "/") && !StartsWith(local, PlusPrefix) {
      assert moved == PlusPrefix + local;
    }
    assert StartsWith(moved, "/") ==> StartsWith(moved, PlusPrefix);
  }

  /** Neither upstream origin occurs in text without a `:`, since both have one after `http`. */
  lemma ColonFreeHasNoOrigin(s: string, host: string, port: nat)
    requires ':' !in s
    ensures !Contains(s, Origin(host, port)) && !Contains(s, DevOrigin)
  {
    var o := Origin(host, port);
    assert o[4] == ':' && DevOrigin[4] == ':';
    forall j: nat | j + 4 < |s| ensures !OccursAt(s, o, j) && !OccursAt(s, DevOrigin, j) {
      assert s[j..][4] == s[j + 4];
    }
  }

  /** Where neither origin occurs, the location is only moved under `/plus` and collapsed. */
  lemma RewriteWithoutOrigins(location: string, host: string, port: nat)
    requires !Contains(location, Origin(host, port)) && !Contains(location, DevOrigin)
    ensures RewriteLocation(location, host, port) == CollapseHome(UnderPlus(location))
  {
    ReplaceAllAbsent(location, DevOrigin, PlusPrefix);
  }

  /** Any other root-relative path outside `/plus` gets the `/plus` prefix. */
  lemma RootRelativeMoved(path: string, host: string, port: nat)
    requires StartsWith(path, "/") && !StartsWith(path, PlusPrefix) && path != Home && path != "/home"
    requires !Contains(path, Origin(host, port)) && !Contains(path, DevOrigin)
    ensures RewriteLocation(path, host, port) == PlusPrefix + path
  {
    RewriteWithoutOrigins(path, host, port);
    assert (PlusPrefix + path)[|PlusPrefix|..] == path;
    assert (PlusPrefix + Home)[|PlusPrefix|..] == Home;
    assert "/plus/home"[|PlusPrefix|..] == "/home";
  }

  /** An absolute URL to another origin is passed back unchanged. */
  lemma ForeignLocationKept(location: string, host: string, port: nat)
    requires !StartsWith(location, "/")
    requires !Contains(location, Origin(host, port)) && !Contains(location, DevOrigin)
    ensures RewriteLocation(location, host, port) == location
  {
    RewriteWithoutOrigins(location, host, port);
    assert StartsWith(PlusPrefix + Home, "/") && StartsWith("/plus/home", "/");
  }

  /** What the two spellings of the home page have in common. */
  lemma HomePathFacts(p: string)
    requires p == Home || p == "/home"
    ensures ':' !in p && ':' !in PlusPrefix + p
    ensures StartsWith(p, "/") && !StartsWith(p, PlusPrefix) && StartsWith(PlusPrefix + p, PlusPrefix)
    ensures CollapseHome(PlusPrefix + p) == PlusPrefix
  {
    assert p[1] != PlusPrefix[1];
  }

  /** A root-relative link to the home page, `/empresas` or `/home`, keeps the user at `/plus`. */
  lemma HomeCollapses(p: string, host: string, port: nat)
    requires p == Home || p == "/home"
    ensures RewriteLocation(p, host, port) == PlusPrefix
  {
    HomePathFacts(p);
    ColonFreeHasNoOrigin(p, host, port);
    RewriteWithoutOrigins(p, host, port);
  }

  /** `/plus/empresas` and `/plus/home` collapse to `/plus`. */
  lemma PlusHomeCollapses(p: string, host: string, port: nat)
    requires p == Home || p == "/home"
    ensures RewriteLocation(PlusPrefix + p, host, port) == PlusPrefix
  {
    HomePathFacts(p);
    ColonFreeHasNoOrigin(PlusPrefix + p, host, port);
    RewriteWithoutOrigins(PlusPrefix + p, host, port);
  }

  /**
   * A redirect to the development origin's home page keeps the user at `/plus`, when the
   * configured origin is that one or does not occur in the location.
   */
  lemma DevHomeCollapses(p: string, host: string, port: nat)
    requires p == Home || p == "/home"
    requires Origin(host, port) == DevOrigin || !Contains(DevOrigin + p, Origin(host, port))
    ensures RewriteLocation(DevOrigin + p, host, port) == PlusPrefix
  {
    HomePathFacts(p);
    var under := PlusPrefix + p;
    ColonFreeHasNoOrigin(under, host, port);
    var local := ReplaceAll(ReplaceFirst(DevOrigin + p, Origin(host, port), PlusPrefix), DevOrigin, PlusPrefix);
    if Origin(host, port) == DevOrigin {
      FirstOriginReplaced(DevOrigin, p);
      ReplaceAllAbsent(under, DevOrigin, PlusPrefix);
    } else {
      ColonFreeHasNoOrigin(p, host, port);
      LeadingOriginReplaced(p);
    }
    assert local == under;
  }

  /** An origin at the start of a location is the first occurrence, and is replaced by `/plus`. */
  lemma FirstOriginReplaced(origin: string, rest: string)
    ensures ReplaceFirst(origin + rest, origin, PlusPrefix) == PlusPrefix + rest
  {
    var s := origin + rest;
    assert origin <= s;
    assert s[..0] + PlusPrefix + s[|origin|..] == PlusPrefix + rest;
  }

  /** A global replace of the development origin at the start of a location that holds no other. */
  lemma LeadingOriginReplaced(rest: string)
    requires !Contains(rest, DevOrigin)
    ensures ReplaceAll(DevOrigin + rest, DevOrigin, PlusPrefix) == PlusPrefix + rest
  {
    var s := DevOrigin + rest;
    assert DevOrigin <= s && s[|DevOrigin|..] == rest;
    ReplaceAllAbsent(rest, DevOrigin, PlusPrefix);
  }

  /** A global replace does not touch a prefix lacking the pattern's first character. */
  lemma {:induction false} ReplaceAllAfter(a: string, b: string, p: string, r: string)
    requires |p| > 0 && p[0] !in a
    ensures ReplaceAll(a + b, p, r) == a + ReplaceAll(b, p, r)
    decreases |a|
  {
    if |a| > 0 {
      var s := a + b;
      assert s[0] == a[0] && a[0] in a;
      assert s[1..] == a[1..] + b;
      if |s| >= |p| {
        assert p[0] != s[0];
        assert !(p <= s);
        calc {
          ReplaceAll(s, p, r);
          [a[0]] + ReplaceAll(a[1..] + b, p, r);
          { ReplaceAllAfter(a[1..], b, p, r); }
          [a[0]] + (a[1..] + ReplaceAll(b, p, r));
          { assert [a[0]] + a[1..] == a; }
          a + ReplaceAll(b, p, r);
        }
      } else {
        assert ReplaceAll(b, p, r) == b;
      }
    } else {
      assert a + b == b;
    }
  }

  /** A redirect to the upstream origin comes back as the same path under `/plus`. */
  lemma UpstreamRedirect(host: string, port: nat, path: string)
    requires !Contains(path, DevOrigin)
    requires path != Home && path != "/home"
    ensures RewriteLocation(Origin(host, port) + path, host, port) == PlusPrefix + path
  {
    var origin := Origin(host, port);
    var location := origin + path;
    assert OccursAt(location, origin, 0);
    assert ReplaceFirst(location, origin, PlusPrefix) == PlusPrefix + path by {
      assert location[|origin|..] == path;
    }
    ReplaceAllAfter(PlusPrefix, path, DevOrigin, PlusPrefix);
    ReplaceAllAbsent(path, DevOrigin, PlusPrefix);
    var moved := PlusPrefix + path;
    assert StartsWith(moved, PlusPrefix);
    assert moved[|PlusPrefix|..] == path;
    assert (PlusPrefix + Home)[|PlusPrefix|..] == Home;
    assert "/plus/home"[|PlusPrefix|..] == "/home";
  }

  /** The proxied response, reduced to its header map. */
  class ProxyResponse {
    var headers: map<string, HeaderValue>

    constructor (headers: map<string, HeaderValue>)
      ensures this.headers == headers
    {
      this.headers := headers;
    }
  }

  /**
   * `proxyRes`: a non-empty string `location` header is rewritten in place; a missing, empty or
   * multi-valued one is left as it is.
   */
  method OnProxyRes(res: ProxyResponse, host: string, port: nat)
    modifies res
    ensures var old_location := if "location" in old(res.headers) then old(res.headers)["location"] else NoHeader;
      res.headers == if old_location.Str? && old_location.s != ""
        then old(res.headers)["location" := Str(RewriteLocation(old_location.s, host, port))]
        else old(res.headers)
  {
    var location := if "location" in res.headers then res.headers["location"] else NoHeader;
    if location.Str? && location.s != "" {
      var newLocation := location.s;
      newLocation := ReplaceFirst(newLocation, Origin(host, port), PlusPrefix);
      newLocation := ReplaceAll(newLocation, DevOrigin, PlusPrefix);
      if StartsWith(newLocation, "/") && !StartsWith(newLocation, PlusPrefix) {
        newLocation := PlusPrefix + newLocation;
      }
      if newLocation == PlusPrefix + Home || newLocation == "/plus/home" {
        newLocation := PlusPrefix;
      }
      res.headers := res.headers["location" := Str(newLocation)];
    }
  }

  /** What `fetch` of the upstream root gave: a status, or an error with its name and message. */
  datatype Probe = Responded(status: int) | Threw(name: string, message: string)

  /** The body of `GET /api/plus/status`. */
  datatype PlusStatus =
    | Online(host: string, port: nat)
    | HttpError(host: string, port: nat, httpStatus: int)
    | Offline(host: string, port: nat, error: string)

  /** Online on a 2xx (`response.ok`) or 3xx (a redirect is not followed); an exception is offline. */
  function StatusOf(probe: Probe, host: string, port: nat): (s: PlusStatus)
    ensures s.host == host && s.port == port
    ensures s.Online? <==> probe.Responded? && 200 <= probe.status < 400
    ensures s.HttpError? <==> probe.Responded? && !(200 <= probe.status < 400)
    ensures s.HttpError? ==> s.httpStatus == probe.status
    ensures s.Offline? ==> s.error == if probe.name == "AbortError" then "timeout" else probe.message
  {
    match probe
    case Responded(status) =>
      var ok := 200 <= status < 300;
      var isRedirect := status >= 300 && status < 400;
      if ok || isRedirect then Online(host, port) else HttpError(host, port, status)
    case Threw(name, message) =>
      Offline(host, port, if name == "AbortError" then "timeout" else message)
  }
}
