/**
 * URL normalisation and the internal/external test of
 * internal/core/normalize.go.
 *
 * A URL is the record of the url.URL fields the normaliser touches. The
 * library routines it calls (URL.Hostname, publicsuffix.EffectiveTLDPlusOne,
 * URL.Query, url.Values.Encode, URL.String) are not modelled here; they are
 * passed in as the function values of a `Lib`, so every property below holds
 * whatever those routines do.
 */
module Normalization {
  import opened Wrappers
  import Text
  import GoPath

  datatype Url = Url(
    scheme: string,
    opaquePart: string,
    user: string,
    host: string,
    path: string,
    rawQuery: string,
    fragment: string)

  /** url.Values: each query key with its values in order. */
  type Values = map<string, seq<string>>

  datatype Lib = Lib(
    hostname: Url -> string,
    etldPlusOne: string -> Option<string>,
    parseQuery: string -> Values,
    encode: Values -> string,
    render: Url -> string)

  /** Query keys that only track campaigns; their lower-case form is matched. */
  const StripParams: set<string> := {
    "utm_source", "utm_medium", "utm_campaign", "utm_term", "utm_content",
    "gclid", "fbclid", "mc_cid", "mc_eid"
  }

  predicate EndsWith(s: string, suffix: string) {
    |suffix| <= |s| && s[|s| - |suffix|..] == suffix
  }

  /** The rewrite of the pattern `:(80|443)$` by the empty string. */
  function StripDefaultPort(host: string): (r: string)
    ensures EndsWith(host, ":80") ==> r + ":80" == host
    ensures EndsWith(host, ":443") ==> r + ":443" == host
    ensures !EndsWith(host, ":80") && !EndsWith(host, ":443") ==> r == host
  {
    if EndsWith(host, ":80") then
      assert host[|host| - 1] == '0';
      host[..|host| - 3]
    else if EndsWith(host, ":443") then host[..|host| - 4]
    else host
  }

  /** path.Clean, with the "." it returns for an empty or dot-only path read as "/". */
  function CleanPath(p: string): (r: string)
    ensures r != [] && r != "."
    ensures GoPath.Clean(p) == "." ==> r == "/"
    ensures GoPath.Clean(p) != "." ==> r == GoPath.Clean(p)
    ensures r[0] == '/' <==> (p == [] || p[0] == '/' || GoPath.Clean(p) == ".")
  {
    GoPath.CleanShape(p);
    var c := GoPath.Clean(p);
    if c == "." then "/" else c
  }

  lemma CleanPathIdempotent(p: string)
    ensures CleanPath(CleanPath(p)) == CleanPath(p)
  {
    GoPath.CleanIdempotent(p);
    var c := GoPath.Clean(p);
    if c == "." {
      assert GoPath.Clean("/") == "/" by {
        GoPath.CleanShape("/");
        assert Text.Split("/", '/') == ["", ""];
        assert GoPath.Reduce([], ["", ""], true) == [];
      }
    }
  }

  predicate IsTracking(key: string) { Text.Lower(key) in StripParams }

  /** The query values with every tracking key deleted. */
  function StripTracking(vals: Values): (r: Values)
    ensures forall k :: k in r <==> k in vals && !IsTracking(k)
    ensures forall k :: k in r ==> r[k] == vals[k]
  {
    map k | k in vals && !IsTracking(k) :: vals[k]
  }

  /** The copy `uu` that Normalize builds before rendering it. */
  function NormalUrl(u: Url, lib: Lib): (r: Url)
    ensures r.fragment == ""
    ensures r.scheme == Text.Lower(u.scheme)
    ensures r.host == StripDefaultPort(Text.Lower(u.host))
    ensures r.path == CleanPath(u.path) && r.path != [] && r.path != "."
    ensures r.opaquePart == u.opaquePart && r.user == u.user
    ensures u.rawQuery == "" ==> r.rawQuery == ""
    ensures u.rawQuery != "" ==> r.rawQuery == lib.encode(StripTracking(lib.parseQuery(u.rawQuery)))
  {
    var q := if u.rawQuery != "" then lib.encode(StripTracking(lib.parseQuery(u.rawQuery))) else u.rawQuery;
    u.(fragment := "",
       scheme := Text.Lower(u.scheme),
       host := StripDefaultPort(Text.Lower(u.host)),
       path := CleanPath(u.path),
       rawQuery := q)
  }

  /** The string Normalize returns; a nil URL gives "". */
  function NormalForm(u: Option<Url>, lib: Lib): string {
    match u
    case None => ""
    case Some(v) => lib.render(NormalUrl(v, lib))
  }

  /**
   * The deduplication key ignores what normalisation drops: URLs that agree
   * after lower-casing the scheme and host, cutting a default port and
   * cleaning the path, whatever their fragments, have the same normal form.
   */
  lemma SameNormalForm(u: Url, v: Url, lib: Lib)
    requires u.opaquePart == v.opaquePart && u.user == v.user && u.rawQuery == v.rawQuery
    requires Text.Lower(u.scheme) == Text.Lower(v.scheme)
    requires StripDefaultPort(Text.Lower(u.host)) == StripDefaultPort(Text.Lower(v.host))
    requires CleanPath(u.path) == CleanPath(v.path)
    ensures NormalForm(Some(u), lib) == NormalForm(Some(v), lib)
  {
    assert NormalUrl(u, lib) == NormalUrl(v, lib);
  }

  /** Normalising twice leaves scheme, fragment and path as normalising once left them. */
  lemma NormalUrlStable(u: Url, lib: Lib)
    ensures NormalUrl(NormalUrl(u, lib), lib).scheme == NormalUrl(u, lib).scheme
    ensures NormalUrl(NormalUrl(u, lib), lib).path == NormalUrl(u, lib).path
    ensures NormalUrl(NormalUrl(u, lib), lib).fragment == ""
  {
    Text.LowerIdempotent(u.scheme);
    CleanPathIdempotent(u.path);
  }

  /** A port other than :80 or :443 survives normalisation. */
  lemma OtherPortKept(host: string, port: string)
    requires port != "80" && port != "443"
    requires forall i :: 0 <= i < |port| ==> '0' <= port[i] <= '9'
    ensures StripDefaultPort(host + ":" + port) == host + ":" + port
  {
    var h := host + ":" + port;
    if EndsWith(h, ":80") {
      PortSuffix(host, port, "80");
    }
    if EndsWith(h, ":443") {
      PortSuffix(host, port, "443");
    }
  }

  lemma ColonAt(host: string, port: string)
    ensures (host + ":" + port)[|host|] == ':'
  {
  }

  lemma ColonBefore(h: string, p: string)
    requires EndsWith(h, ":" + p)
    ensures h[|h| - |p| - 1] == ':'
  {
    assert h[|h| - |p| - 1] == (":" + p)[0];
  }

  /** A port of digits that ends in `:p` is `p` itself: the colon cannot fall inside it. */
  lemma PortSuffix(host: string, port: string, p: string)
    requires forall i :: 0 <= i < |port| ==> '0' <= port[i] <= '9'
    requires ':' !in p
    requires EndsWith(host + ":" + port, ":" + p)
    ensures port == p
  {
    var h := host + ":" + port;
    var n := |h|;
    if |p| < |port| {
      ColonBefore(h, p);
      assert false;
    } else if |p| > |port| {
      ColonAt(host, port);
      assert false;
    }
    assert port == h[n - |p|..];
    assert p == (":" + p)[1..];
  }

  /**
   * Normalize: copy the URL, overwrite its fields one by one and delete the
   * tracking keys from the parsed query before encoding it again. The source
   * visits the keys in sorted order; the order does not change which keys go.
   */
  method Normalize(u: Option<Url>, lib: Lib) returns (s: string)
    ensures s == NormalForm(u, lib)
  {
    if u.None? {
      return "";
    }
    var uu := u.value;
    uu := uu.(fragment := "");
    uu := uu.(scheme := Text.Lower(uu.scheme));
    uu := uu.(host := Text.Lower(uu.host));
    uu := uu.(host := StripDefaultPort(uu.host));
    uu := uu.(path := GoPath.Clean(uu.path));
    if uu.path == "." {
      uu := uu.(path := "/");
    }
    if uu.rawQuery != "" {
      var vals := lib.parseQuery(uu.rawQuery);
      ghost var parsed := vals;
      var keys := vals.Keys;
      while keys != {}
        invariant keys <= parsed.Keys
        invariant forall k :: k in vals <==> k in parsed && (k in keys || !IsTracking(k))
        invariant forall k :: k in vals ==> vals[k] == parsed[k]
        decreases keys
      {
        var k :| k in keys;
        if Text.Lower(k) in StripParams {
          vals := vals - {k};
        }
        keys := keys - {k};
      }
      assert vals == StripTracking(parsed);
      uu := uu.(rawQuery := lib.encode(vals));
    }
    s := lib.render(uu);
  }

  /** The receiver of IsInternal: the lower-cased registrable domain of the start URL. */
  datatype DomainNormalizer = DomainNormalizer(rootEtld1: string)

  /** NewDomainNormalizer: falls back to the start host name when the lookup fails. */
  function NewDomainNormalizer(start: Url, lib: Lib): (d: DomainNormalizer)
    ensures lib.etldPlusOne(lib.hostname(start)).Some? ==>
      d.rootEtld1 == Text.Lower(lib.etldPlusOne(lib.hostname(start)).value)
    ensures lib.etldPlusOne(lib.hostname(start)).None? ==>
      d.rootEtld1 == Text.Lower(lib.hostname(start))
  {
    var host := lib.hostname(start);
    var e := lib.etldPlusOne(host);
    DomainNormalizer(Text.Lower(e.GetOr(host)))
  }

  /** IsInternal: same registrable domain as the start URL, ignoring case. */
  predicate IsInternal(d: DomainNormalizer, u: Option<Url>, lib: Lib)
  {
    match u
    case None => false
    case Some(v) =>
      match lib.etldPlusOne(lib.hostname(v))
      case None => false
      case Some(e) => Text.EqualFold(e, d.rootEtld1)
  }

  /**
   * A link is internal to the normaliser of `start` exactly when its
   * registrable domain is found and equals, up to ASCII case, the start's
   * registrable domain, or the start's host name when that lookup failed.
   */
  lemma InternalIffSameSite(start: Url, u: Url, lib: Lib)
    ensures lib.etldPlusOne(lib.hostname(start)).Some? ==>
      (IsInternal(NewDomainNormalizer(start, lib), Some(u), lib) <==>
        lib.etldPlusOne(lib.hostname(u)).Some? &&
        Text.EqualFold(lib.etldPlusOne(lib.hostname(u)).value, lib.etldPlusOne(lib.hostname(start)).value))
    ensures lib.etldPlusOne(lib.hostname(start)).None? ==>
      (IsInternal(NewDomainNormalizer(start, lib), Some(u), lib) <==>
        lib.etldPlusOne(lib.hostname(u)).Some? &&
        Text.EqualFold(lib.etldPlusOne(lib.hostname(u)).value, lib.hostname(start)))
  {
    var e := lib.etldPlusOne(lib.hostname(start));
    Text.LowerIdempotent(e.GetOr(lib.hostname(start)));
  }

  /** The start URL is internal to its own normaliser exactly when its lookup succeeds. */
  lemma StartIsInternal(start: Url, lib: Lib)
    ensures IsInternal(NewDomainNormalizer(start, lib), Some(start), lib)
      <==> lib.etldPlusOne(lib.hostname(start)).Some?
  {
    var e := lib.etldPlusOne(lib.hostname(start));
    if e.Some? {
      Text.LowerIdempotent(e.value);
    }
  }
}
