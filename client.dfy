/** The Open311 client object: a snapshot of the construction-time keyword
    options, the five live configuration fields that configure() and reset()
    rewrite, and fields fixed at construction. */
module Client {
  import opened Options

  /** The user agent the client identifies itself with. */
  const UserAgent: string := "Open311 Python Wrapper"

  class Open311 {
    /** The construction-time options, a defaultdict(str). */
    var snapshot: Options
    var apiKey: string
    var endpoint: string
    var format: string
    var jurisdiction: string
    var proxy: string
    var userAgent: string
    /** Copies of endpoint and format taken once, at construction. */
    var baseUrl: string
    var outputFormat: string

    /** The live configuration. */
    function Current(): Settings
      reads this
    {
      Settings(apiKey, endpoint, format, jurisdiction, proxy)
    }

    /** The configuration the client had right after construction. */
    function Initial(): Settings
      reads this
    {
      Resolve(snapshot, map[])
    }

    /** The fields fixed at construction still hold their construction-time
        values, and the live format is never empty. */
    ghost predicate Valid()
      reads this
    {
      && baseUrl == Initial().endpoint
      && outputFormat == Initial().format
      && userAgent == UserAgent
      && format != ""
    }

    constructor (kwargs: Options)
      ensures Valid()
      ensures snapshot == kwargs
      ensures Current() == Resolve(kwargs, map[])
    {
      var copy := CopyOptions(kwargs);
      snapshot := copy;
      userAgent := UserAgent;
      new;
      Configure(map[]);
      baseUrl := endpoint;
      outputFormat := format;
    }

    /** Merge the overrides over the construction-time snapshot (not over the
        live fields) and assign the five live fields from the result. */
    method Configure(overrides: Options)
      modifies this
      ensures Current() == Resolve(snapshot, overrides)
      ensures snapshot == old(snapshot)
      ensures baseUrl == old(baseUrl) && outputFormat == old(outputFormat)
      ensures userAgent == old(userAgent)
      ensures old(Valid()) ==> Valid()
    {
      var keywords := snapshot + overrides;
      apiKey := Lookup(keywords, "api_key");
      endpoint := Lookup(keywords, "endpoint");
      var fmt := Lookup(keywords, "format");
      format := if fmt == "" then DefaultFormat else fmt;
      jurisdiction := Lookup(keywords, "jurisdiction");
      proxy := Lookup(keywords, "proxy");
    }

    /** Return the live fields to their construction-time values. */
    method Reset()
      modifies this
      ensures Current() == Initial()
      ensures snapshot == old(snapshot)
      ensures baseUrl == old(baseUrl) && outputFormat == old(outputFormat)
      ensures userAgent == old(userAgent)
      ensures old(Valid()) ==> Valid()
    {
      Configure(map[]);
    }
  }
}
