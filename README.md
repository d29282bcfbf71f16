# Open311 client: configuration and request construction

A Dafny model of the Python wrapper for the Open311 GeoReport v2 API
(`open311/open311.py`). The `Open311` client has two parts:

- **Configuration holder.** The client keeps a snapshot of the keyword
  options it was built with, in a `defaultdict(str)`. `configure(**overrides)`
  merges the overrides over that snapshot, not over the live fields. It then
  assigns `api_key`, `endpoint`, `format`, `jurisdiction` and `proxy`, and an
  empty `format` becomes `"xml"`. `reset()` is `configure()` with no
  overrides. `base_url`, `output_format` and `user_agent` are set once, at
  construction.
- **Request construction.** Each operation builds a request from the live
  fields. The GETs are `service_list`, `service_definition`,
  `service_requests`, `get_service_request` and `request_id_from_token`; each
  is a path plus query parameters handed to the transport. An integer id is
  written with `str()`. `post_service_request` builds a complete URL with the
  jurisdiction and API key in the query, and sends the caller's fields as the
  body.

Modules:

- `Decimal` (`decimal.dfy`): Python's `str()` of an `int`. `ParseInt` is its
  inverse. The two are proved to be inverse bijections between the integers
  and the canonical decimal strings.
- `Options` (`options.dfy`): the option maps and the defaultdict read
  `Lookup`. `CopyOptions` is the constructor's copying loop. `Resolve` is the
  merge-and-normalise rule behind `configure()`, specified field by field
  against `Chosen`: the override, else the snapshot value, else `""`.
- `Client` (`client.dfy`): the class `Open311` with the snapshot, the five
  live fields and the fields fixed at construction. It has a constructor and
  the methods `Configure` and `Reset`. `Valid()` is its invariant: the fixed
  fields keep their construction-time values, and the format is never empty.
- `Requests` (`requests.dfy`): the request values; each operation is a
  function of the live configuration (`o.Current()`). `SplitPath` is the
  partner of the path builder: it recovers the id text from a path.
- `Scenarios` (`scenarios.dfy`): the cases of `test_open311.py`
  (test_open311.py:15-55), written as client code and proved from the
  class's contracts alone. `EmptyInit`, `InitWithKwargs`,
  `ConfigureWithApiKey`, `ConfigureWithMultipleKwargs` and
  `ResetRestoresInitialProperties` are the five tests. `ConfigureMergesOverSnapshot`
  is the two-configure case of open311/open311.py:33-34: an `api_key` set by
  one configure() is gone after a second configure() that sets only `endpoint`.
  `DefaultFormatInPaths` shows that a client built without a format gets the
  default format `xml` in its id-taking paths. These are proved examples with
  assertions, not contracts, so they have no row below. `ResetAfterAnyHistory`
  states the reset guarantee over any history of `configure()` calls.

Two behaviours of the source are worth noting:

- `service_list` requests `services.xml` whatever the configured format
  (open311/open311.py:47). Every other operation uses the live format.
- `configure()` does not assign `user_agent` (open311/open311.py:28-39). It
  is set once, at construction, by the base class.

I/O and collaborators are parameters or outside the model. The URL-encoding
utility is the parameter `enc`. A GET is the value `Get(path, params)`, which
is what the client passes to its transport.

## Model

| member | source | states |
|---|---|---|
| `Decimal.IntToString` | open311/open311.py:52-53 | `str(n)` is canonical decimal text: a `-` exactly when `n < 0`, then digits with no leading zero other than `"0"` itself |
| `Decimal.ParseIntToString` | open311/open311.py:52-53 | reading `str(n)` back as an integer gives `n` for every integer |
| `Decimal.IntToStringOfParse` | open311/open311.py:52-53 | every canonical decimal string is `str()` of the integer it denotes, so the conversion is onto the canonical strings |
| `Decimal.IntToStringInjective` | open311/open311.py:52-53 | `str(a) == str(b)` if and only if `a == b` |
| `Options.Lookup` | open311/open311.py:19-22 | a defaultdict(str) read gives the stored value for a present key and `""` for a missing one |
| `Options.CopyOptions` | open311/open311.py:19-22 | the item-by-item copy of the keyword arguments equals them: same keys, same values |
| `Options.Resolve` | open311/open311.py:33-39 | each of api_key, endpoint, jurisdiction and proxy is the override if given, else the snapshot's value, else `""`; format follows the same rule except that `""` becomes `"xml"`, so it is never empty |
| `Options.UnnamedFieldsFallBack` | open311/open311.py:33-34 | a field the overrides do not name gets its construction-time value, not the value an earlier configure() left |
| `Options.OnlyRecognisedKeysMatter` | open311/open311.py:35-39 | adding an option other than the five recognised names, to the snapshot or to the overrides, changes no field |
| `Client.Open311.constructor` | open311/open311.py:17-25 | the snapshot equals the keyword arguments; the live fields are `Resolve(kwargs, {})`; base_url and output_format copy the resulting endpoint and format; user_agent is "Open311 Python Wrapper" |
| `Client.Open311.Configure` | open311/open311.py:28-39 | the live fields become `Resolve(snapshot, overrides)`; the snapshot, base_url, output_format and user_agent are unchanged; the invariant is kept |
| `Client.Open311.Reset` | open311/open311.py:41-43 | the live fields become the construction-time configuration; the snapshot and the fixed fields are unchanged |
| `Scenarios.ResetAfterAnyHistory` | test_open311.py:50-55 | after any sequence of configure() calls and then reset(), every live field equals its value right after construction and the snapshot is untouched |
| `Requests.IdText` | open311/open311.py:52-53 | an integer id contributes canonical decimal text that reads back as the integer; a string id contributes itself |
| `Requests.SplitResourcePath` | open311/open311.py:54 | splitting `prefix + id + "." + format` at the prefix and the suffix recovers the id text |
| `Requests.SplitPathSound` | open311/open311.py:54 | any path the splitter accepts is exactly `prefix + text + "." + format` for the text it returns |
| `Requests.ResourcePathInjective` | open311/open311.py:54 | for one prefix and format, two ids give the same path if and only if their texts are equal |
| `Requests.IntAndStrIdsAgree` | open311/open311.py:52-54 | the integer N and a string s give the same path if and only if s is `str(N)` |
| `Requests.IntIdsDistinct` | open311/open311.py:52-54 | distinct integer ids give distinct paths |
| `Requests.ServiceList` | open311/open311.py:45-47 | service_list issues a GET to the fixed path "services.xml" whose only query parameter is jurisdiction_id, set to the live jurisdiction |
| `Requests.ServiceListIgnoresFormat` | open311/open311.py:47 | the service_list path is "services.xml" and its request does not depend on the configured format |
| `Requests.ServiceDefinition` | open311/open311.py:50-55 | a GET with only jurisdiction_id; its path splits under "service/" and the live format back to the id text |
| `Requests.ServiceRequests` | open311/open311.py:58-62 | a GET to `"requests." + format`; its parameters hold the caller's filter keys plus jurisdiction_id, set to the live jurisdiction whatever the caller supplied, and every other filter is unchanged |
| `Requests.ServiceRequestsWithoutFilters` | open311/open311.py:60-62 | with no filters, the only query parameter is jurisdiction_id |
| `Requests.GetServiceRequest` | open311/open311.py:65-70 | a GET with only jurisdiction_id; its path splits under "requests/" and the live format back to the id text |
| `Requests.RequestIdFromToken` | open311/open311.py:86-91 | a GET with only jurisdiction_id; its path splits under "tokens/" and the live format back to the token text |
| `Requests.IntIdsMatchDecimalStrings` | open311/open311.py:50-91 | for service_definition, get_service_request and request_id_from_token, the integer N and the string s issue the same request if and only if s is `str(N)` |
| `Requests.ServiceListPathDistinct` | open311/open311.py:45-91 | the service_list path differs from the path of every other GET operation, whatever the ids, filters and format |
| `Requests.ServiceDefinitionPathDistinct` | open311/open311.py:50-91 | a service-definition path differs from every request, request-list and token path |
| `Requests.RequestPathsDistinct` | open311/open311.py:58-91 | the request-list, single-request and token paths are pairwise different |
| `Requests.PostQuery` | open311/open311.py:75-78 | the POST query holds exactly jurisdiction_id and api_key, set to the live jurisdiction and API key |
| `Requests.PostServiceRequest` | open311/open311.py:73-81 | the request is a POST whose body is the encoding of exactly the caller's fields |
| `Requests.PostTargetsRequestCollection` | open311/open311.py:79-80 | the POST URL is the live endpoint, "/", the same `requests.<format>` path that service_requests reads, "?" and the encoded query |
| `Requests.PostSeparatesQueryFromBody` | open311/open311.py:75-81 | the POST URL depends only on the configuration and the body only on the caller's fields; the query parameters enter the body only if the caller supplied them |

## Left out

- `call_api`, `_format_data`, `urlopen` and `urlencode` belong to the `open311/api` package, which is not part of this model. They are HTTP transport and a foreign library. `urlencode` is the parameter `enc`, so nothing is claimed about its output format.
- Joining a GET path to the base URL is done inside `call_api`. The model does not say whether that uses `base_url`, which is frozen at construction, or the live `endpoint`.
- Response decoding is not modelled: XML through the `xml2dict` package, or JSON. This includes the shape-mismatch errors of the follow-up lookups `data['services']['service']` and `data['service_requests']['request']`. The decoded shapes come from code that is not part of this model.
- Using the proxy and sending the user agent are the base class's and the transport's job. The model only keeps the fields.
- `required_params = None` (open311/open311.py:26) is never read in this file, so it is not modelled.
- `Requests.IdText`: ids are a Python `int` or a string. Under Python 2, an integer too large for `int` is a `long`, which the `isinstance` check passes through unconverted; `''.join` then raises `TypeError`. A `bool` id is an `int` and would be written `"True"`/`"False"`. Neither case is modelled.
- Request parameters and body fields are modelled as string values: the `filters` of `service_requests` and the `fields` of `post_service_request` are maps from strings to strings. Python callers may pass any value, such as `lat=38.9`, which `urlencode` turns into text; `enc` is opaque, so no claim depends on this.
- `Options.Resolve`: option values are strings. The `or 'xml'` test replaces every falsy value, such as `None` or `0`, but only the empty string is modelled.
- `Client.Open311.Configure`: each `keywords[name]` read in configure() inserts a missing key into a local copy of the snapshot. That copy is discarded, so the insertions are not observable and the model reads the merged map with `Lookup` instead.
- Dictionary order of query parameters and bodies is not modelled. Parameters are maps, and Python 2 dict order is arbitrary.
- Concurrency: the client is single-threaded, with no locking.
