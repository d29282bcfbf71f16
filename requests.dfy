/** The requests the client's operations issue, built from the live
    configuration. A GET is a path (joined to the base URL by the transport)
    with its query parameters; a POST is a complete URL with an encoded body.
    `enc` stands for the URL-encoding utility, whose output format is not
    part of this model. */
module Requests {
  import opened Decimal
  import opened Options

  datatype Option<T> = None | Some(value: T)

  /** An identifier as a caller passes it: a Python int or a string. */
  datatype Id = IntId(n: int) | StrId(s: string)

  datatype Call =
    | Get(path: string, params: Options)
    | Post(url: string, body: string)

  const ServicePrefix: string := "service/"
  const RequestPrefix: string := "requests/"
  const TokenPrefix: string := "tokens/"

  /** The text an identifier contributes to a path: str() of an int, a
      string unchanged. Integer text always reads back as the integer. */
  function IdText(id: Id): (t: string)
    ensures id.IntId? ==> IsCanonicalInt(t) && ParseInt(t) == id.n
    ensures id.StrId? ==> t == id.s
  {
    match id
    case IntId(n) => ParseIntToString(n); IntToString(n)
    case StrId(s) => s
  }

  /** `prefix + id + "." + format`. */
  function ResourcePath(prefix: string, id: Id, format: string): (p: string) {
    prefix + IdText(id) + "." + format
  }

  /** Reads a path of the shape `prefix + t + "." + format` and returns t. */
  function SplitPath(prefix: string, format: string, path: string): (t: Option<string>) {
    var suffix := "." + format;
    if |prefix| + |suffix| <= |path| && path[..|prefix|] == prefix && path[|path| - |suffix|..] == suffix
    then Some(path[|prefix|..|path| - |suffix|])
    else None
  }

  /** SplitPath recovers the identifier text of every resource path. */
  lemma SplitResourcePath(prefix: string, id: Id, format: string)
    ensures SplitPath(prefix, format, ResourcePath(prefix, id, format)) == Some(IdText(id))
  {
    var t := IdText(id);
    var p := ResourcePath(prefix, id, format);
    assert p == prefix + t + ("." + format);
    assert p[..|prefix|] == prefix;
    assert p[|p| - |"." + format|..] == "." + format;
    assert p[|prefix|..|p| - |"." + format|] == t;
  }

  /** Whatever SplitPath accepts is a resource path of the text it returns. */
  lemma SplitPathSound(prefix: string, format: string, path: string)
    requires SplitPath(prefix, format, path).Some?
    ensures path == ResourcePath(prefix, StrId(SplitPath(prefix, format, path).value), format)
  {
  }

  /** Two identifiers give the same resource path exactly when their texts agree. */
  lemma ResourcePathInjective(prefix: string, format: string, a: Id, b: Id)
    ensures ResourcePath(prefix, a, format) == ResourcePath(prefix, b, format) <==> IdText(a) == IdText(b)
  {
    if ResourcePath(prefix, a, format) == ResourcePath(prefix, b, format) {
      SplitResourcePath(prefix, a, format);
      SplitResourcePath(prefix, b, format);
    }
  }

  /** The integer N and a string give the same path exactly when the string is str(N). */
  lemma IntAndStrIdsAgree(prefix: string, format: string, n: int, s: string)
    ensures ResourcePath(prefix, IntId(n), format) == ResourcePath(prefix, StrId(s), format) <==> s == IntToString(n)
  {
    ResourcePathInjective(prefix, format, IntId(n), StrId(s));
  }

  /** Distinct integers give distinct paths. */
  lemma IntIdsDistinct(prefix: string, format: string, a: int, b: int)
    ensures ResourcePath(prefix, IntId(a), format) == ResourcePath(prefix, IntId(b), format) <==> a == b
  {
    ResourcePathInjective(prefix, format, IntId(a), IntId(b));
    IntToStringInjective(a, b);
  }

  /** The only query parameter of the single-resource GETs. */
  function JurisdictionParams(s: Settings): (q: map<string, string>) {
    map["jurisdiction_id" := s.jurisdiction]
  }

  /** service_list: a fixed XML path, whatever the configured format. */
  function ServiceList(s: Settings): (c: Call)
    ensures c.Get? && c.path == "services.xml"
    ensures c.params == JurisdictionParams(s)
  {
    Get("services.xml", JurisdictionParams(s))
  }

  /** service_definition: the path names the definition's id under "service/". */
  function ServiceDefinition(s: Settings, id: Id): (c: Call)
    ensures c.Get? && c.params == JurisdictionParams(s)
    ensures SplitPath(ServicePrefix, s.format, c.path) == Some(IdText(id))
  {
    SplitResourcePath(ServicePrefix, id, s.format);
    Get(ResourcePath(ServicePrefix, id, s.format), JurisdictionParams(s))
  }

  /** service_requests: the caller's filters, with jurisdiction_id set to the
      live jurisdiction whether or not the caller supplied one. */
  function ServiceRequests(s: Settings, filters: Options): (c: Call)
    ensures c.Get? && c.path == "requests." + s.format
    ensures c.params.Keys == filters.Keys + {"jurisdiction_id"}
    ensures c.params["jurisdiction_id"] == s.jurisdiction
    ensures forall k :: k in filters && k != "jurisdiction_id" ==> c.params[k] == filters[k]
  {
    Get("requests." + s.format, filters["jurisdiction_id" := s.jurisdiction])
  }

  /** get_service_request: the path names the request's id under "requests/". */
  function GetServiceRequest(s: Settings, id: Id): (c: Call)
    ensures c.Get? && c.params == JurisdictionParams(s)
    ensures SplitPath(RequestPrefix, s.format, c.path) == Some(IdText(id))
  {
    SplitResourcePath(RequestPrefix, id, s.format);
    Get(ResourcePath(RequestPrefix, id, s.format), JurisdictionParams(s))
  }

  /** request_id_from_token: the path names the token under "tokens/". */
  function RequestIdFromToken(s: Settings, id: Id): (c: Call)
    ensures c.Get? && c.params == JurisdictionParams(s)
    ensures SplitPath(TokenPrefix, s.format, c.path) == Some(IdText(id))
  {
    SplitResourcePath(TokenPrefix, id, s.format);
    Get(ResourcePath(TokenPrefix, id, s.format), JurisdictionParams(s))
  }

  /** The query parameters of a POST: the jurisdiction and the API key. */
  function PostQuery(s: Settings): (q: map<string, string>)
    ensures q.Keys == {"jurisdiction_id", "api_key"}
    ensures q["jurisdiction_id"] == s.jurisdiction && q["api_key"] == s.apiKey
  {
    map["jurisdiction_id" := s.jurisdiction, "api_key" := s.apiKey]
  }

  /** post_service_request: the request collection under the live endpoint,
      the query in the URL and exactly the caller's fields in the body. */
  function PostServiceRequest(s: Settings, enc: Options -> string, fields: Options): (c: Call)
    ensures c.Post? && c.body == enc(fields)
  {
    Post(s.endpoint + "/requests" + "." + s.format + "?" + enc(PostQuery(s)), enc(fields))
  }

  /** The POST goes to the same collection path that service_requests reads,
      below the live endpoint. */
  lemma PostTargetsRequestCollection(s: Settings, enc: Options -> string, fields: Options)
    ensures PostServiceRequest(s, enc, fields).url
         == s.endpoint + "/" + ServiceRequests(s, map[]).path + "?" + enc(PostQuery(s))
  {
  }

  /** The URL depends only on the configuration, the body only on the fields. */
  lemma PostSeparatesQueryFromBody(s: Settings, t: Settings, enc: Options -> string, f: Options, g: Options)
    ensures s == t ==> PostServiceRequest(s, enc, f).url == PostServiceRequest(t, enc, g).url
    ensures f == g ==> PostServiceRequest(s, enc, f).body == PostServiceRequest(t, enc, g).body
  {
  }

  /** service_list reads only the jurisdiction; the format plays no part. */
  lemma ServiceListIgnoresFormat(s: Settings, format: string)
    ensures ServiceList(s.(format := format)) == ServiceList(s)
    ensures ServiceList(s).path == "services.xml"
  {
  }

  /** With no filters, service_requests sends only jurisdiction_id. */
  lemma ServiceRequestsWithoutFilters(s: Settings)
    ensures ServiceRequests(s, map[]).params == JurisdictionParams(s)
  {
  }

  /** For each id-taking operation, the integer N and the string str(N) issue
      the same request, and no other string does. */
  lemma IntIdsMatchDecimalStrings(s: Settings, n: int, t: string)
    ensures ServiceDefinition(s, IntId(n)) == ServiceDefinition(s, StrId(t)) <==> t == IntToString(n)
    ensures GetServiceRequest(s, IntId(n)) == GetServiceRequest(s, StrId(t)) <==> t == IntToString(n)
    ensures RequestIdFromToken(s, IntId(n)) == RequestIdFromToken(s, StrId(t)) <==> t == IntToString(n)
  {
  }

  /** The five GET operations never request the same path, whatever the ids,
      filters and format: each path below is told apart from the ones after it
      by its first character or by the character after "service" or "requests". */
  lemma ServiceListPathDistinct(s: Settings, a: Id, b: Id, c: Id, filters: Options)
    ensures ServiceList(s).path != ServiceDefinition(s, a).path
    ensures ServiceList(s).path != ServiceRequests(s, filters).path
    ensures ServiceList(s).path != GetServiceRequest(s, b).path
    ensures ServiceList(s).path != RequestIdFromToken(s, c).path
  {
    var p := ServiceList(s).path;
    assert p[7] == 's' && p[0] == 's';
    PrefixChar(ServicePrefix, a, s.format, 7);
    PrefixChar(RequestPrefix, b, s.format, 0);
    PrefixChar(TokenPrefix, c, s.format, 0);
    CharAfterPrefix("requests.", s.format, 0);
  }

  lemma ServiceDefinitionPathDistinct(s: Settings, a: Id, b: Id, c: Id, filters: Options)
    ensures ServiceDefinition(s, a).path != ServiceRequests(s, filters).path
    ensures ServiceDefinition(s, a).path != GetServiceRequest(s, b).path
    ensures ServiceDefinition(s, a).path != RequestIdFromToken(s, c).path
  {
    PrefixChar(ServicePrefix, a, s.format, 0);
    PrefixChar(RequestPrefix, b, s.format, 0);
    PrefixChar(TokenPrefix, c, s.format, 0);
    CharAfterPrefix("requests.", s.format, 0);
  }

  lemma RequestPathsDistinct(s: Settings, b: Id, c: Id, filters: Options)
    ensures ServiceRequests(s, filters).path != GetServiceRequest(s, b).path
    ensures ServiceRequests(s, filters).path != RequestIdFromToken(s, c).path
    ensures GetServiceRequest(s, b).path != RequestIdFromToken(s, c).path
  {
    PrefixChar(RequestPrefix, b, s.format, 0);
    PrefixChar(RequestPrefix, b, s.format, 8);
    PrefixChar(TokenPrefix, c, s.format, 0);
    CharAfterPrefix("requests.", s.format, 0);
    CharAfterPrefix("requests.", s.format, 8);
  }

  /** A resource path starts with its prefix. */
  lemma PrefixChar(prefix: string, id: Id, format: string, i: nat)
    requires i < |prefix|
    ensures i < |ResourcePath(prefix, id, format)| && ResourcePath(prefix, id, format)[i] == prefix[i]
  {
  }

  /** A string built on a prefix starts with the prefix's characters. */
  lemma CharAfterPrefix(prefix: string, rest: string, i: nat)
    requires i < |prefix|
    ensures i < |prefix + rest| && (prefix + rest)[i] == prefix[i]
  {
  }
}
