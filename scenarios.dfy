/** Clients of the Open311 class: the unit tests of test_open311.py, and the
    reset guarantee stated over an arbitrary history of configure() calls.
    Each is proved from the class's contracts alone. */
module Scenarios {
  import opened Options
  import opened Client
  import opened Requests
  import opened Decimal

  method EmptyInit() {
    var o := new Open311(map[]);
    assert o.apiKey == "" && o.endpoint == "" && o.format == "xml";
    assert o.jurisdiction == "" && o.proxy == "";
    assert o.userAgent == "Open311 Python Wrapper";
  }

  method InitWithKwargs() {
    var o := new Open311(map["api_key" := "my_api_key", "endpoint" := "http://test.com"]);
    assert o.apiKey == "my_api_key" && o.endpoint == "http://test.com";
  }

  method ConfigureWithApiKey() {
    var o := new Open311(map[]);
    assert o.apiKey == "";
    o.Configure(map["api_key" := "my_api_key"]);
    assert o.apiKey == "my_api_key";
  }

  method ConfigureWithMultipleKwargs() {
    var o := new Open311(map[]);
    assert o.endpoint == "" && o.jurisdiction == "";
    var endpoint := "http://api.dc.org/open311/v2_dev/";
    o.Configure(map["endpoint" := endpoint, "jurisdiction" := "dc.gov"]);
    assert o.endpoint == endpoint && o.jurisdiction == "dc.gov";
  }

  method ResetRestoresInitialProperties() {
    var o := new Open311(map[]);
    o.Configure(map["api_key" := "my_api_key"]);
    assert o.apiKey == "my_api_key";
    o.Reset();
    assert o.apiKey == "";
  }

  /** A second configure() starts again from the snapshot: the api_key set by
      the first is gone. */
  method ConfigureMergesOverSnapshot(kwargs: Options, key: string, url: string) {
    var o := new Open311(kwargs);
    var initial := o.Current();
    o.Configure(map["api_key" := key]);
    assert o.apiKey == key;
    o.Configure(map["endpoint" := url]);
    assert o.endpoint == url && o.apiKey == initial.apiKey;
  }

  /** After any sequence of configure() calls, reset() restores every field
      to its value right after construction, and the construction-time
      fields are untouched throughout. */
  method ResetAfterAnyHistory(o: Open311, history: seq<Options>)
    requires o.Valid()
    modifies o
    ensures o.Valid() && o.snapshot == old(o.snapshot)
    ensures o.Current() == Resolve(old(o.snapshot), map[])
  {
    for i := 0 to |history|
      invariant o.Valid() && o.snapshot == old(o.snapshot)
    {
      o.Configure(history[i]);
    }
    o.Reset();
  }

  /** The format never reads as empty, so every id-taking path ends in ".xml"
      for a client built without a format. */
  method DefaultFormatInPaths(n: int) {
    var o := new Open311(map[]);
    var c := ServiceDefinition(o.Current(), IntId(n));
    assert o.format == "xml";
    assert SplitPath(ServicePrefix, "xml", c.path) == Some(IntToString(n));
  }
}
