/** Keyword options of an Open311 client and the rule that turns a snapshot
    of construction-time options plus per-call overrides into the five live
    configuration fields. Option names and values are strings. */
module Options {

  type Options = map<string, string>

  /** The value a defaultdict(str) yields for key k: the stored value, or "". */
  function Lookup(m: Options, k: string): (v: string)
    ensures k in m ==> v == m[k]
    ensures k !in m ==> v == ""
  {
    if k in m then m[k] else ""
  }

  /** The loop in the constructor that copies the caller's keyword arguments,
      one item at a time, into a fresh defaultdict. */
  method CopyOptions(kwargs: Options) returns (copy: Options)
    ensures copy == kwargs
  {
    copy := map[];
    var rest := kwargs;
    while rest != map[]
      invariant copy.Keys !! rest.Keys
      invariant copy + rest == kwargs
      decreases |rest|
    {
      var k :| k in rest;
      MoveKey(copy, rest, k);
      RemoveShrinks(rest, k);
      copy, rest := copy[k := rest[k]], rest - {k};
    }
    assert copy + rest == copy;
  }

  /** One step of the copying loop: moving key k from rest to copy keeps the
      two disjoint and keeps their union. */
  lemma MoveKey(copy: Options, rest: Options, k: string)
    requires k in rest && copy.Keys !! rest.Keys
    ensures copy[k := rest[k]].Keys !! (rest - {k}).Keys
    ensures copy[k := rest[k]] + (rest - {k}) == copy + rest
  {
  }

  /** Removing a present key shrinks a map. */
  lemma RemoveShrinks(m: Options, k: string)
    requires k in m
    ensures |m - {k}| < |m|
  {
  }

  /** The five live configuration fields. */
  datatype Settings = Settings(
    apiKey: string,
    endpoint: string,
    format: string,
    jurisdiction: string,
    proxy: string)

  /** The format used when none, or an empty one, is configured. */
  const DefaultFormat: string := "xml"

  /** An override if the caller gave one, else the snapshot's value, else "". */
  function Chosen(snapshot: Options, overrides: Options, k: string): (v: string) {
    if k in overrides then overrides[k]
    else if k in snapshot then snapshot[k]
    else ""
  }

  /** A copy of the snapshot updated with the overrides, read through the
      defaultdict rule; an empty format falls back to "xml". */
  function Resolve(snapshot: Options, overrides: Options): (s: Settings)
    ensures s.apiKey == Chosen(snapshot, overrides, "api_key")
    ensures s.endpoint == Chosen(snapshot, overrides, "endpoint")
    ensures s.jurisdiction == Chosen(snapshot, overrides, "jurisdiction")
    ensures s.proxy == Chosen(snapshot, overrides, "proxy")
    ensures Chosen(snapshot, overrides, "format") != "" ==> s.format == Chosen(snapshot, overrides, "format")
    ensures Chosen(snapshot, overrides, "format") == "" ==> s.format == DefaultFormat
    ensures s.format != ""
  {
    var keywords := snapshot + overrides;
    var format := Lookup(keywords, "format");
    Settings(
      Lookup(keywords, "api_key"),
      Lookup(keywords, "endpoint"),
      if format == "" then DefaultFormat else format,
      Lookup(keywords, "jurisdiction"),
      Lookup(keywords, "proxy"))
  }

  /** A field the overrides do not name keeps its construction-time value:
      overrides merge over the snapshot, never over earlier overrides. */
  lemma UnnamedFieldsFallBack(snapshot: Options, overrides: Options)
    ensures "api_key" !in overrides ==> Resolve(snapshot, overrides).apiKey == Resolve(snapshot, map[]).apiKey
    ensures "endpoint" !in overrides ==> Resolve(snapshot, overrides).endpoint == Resolve(snapshot, map[]).endpoint
    ensures "format" !in overrides ==> Resolve(snapshot, overrides).format == Resolve(snapshot, map[]).format
    ensures "jurisdiction" !in overrides ==> Resolve(snapshot, overrides).jurisdiction == Resolve(snapshot, map[]).jurisdiction
    ensures "proxy" !in overrides ==> Resolve(snapshot, overrides).proxy == Resolve(snapshot, map[]).proxy
  {
  }

  /** Only the five recognised option names matter; any other key in the
      snapshot or the overrides is ignored. */
  lemma OnlyRecognisedKeysMatter(snapshot: Options, overrides: Options, k: string, v: string)
    requires k !in {"api_key", "endpoint", "format", "jurisdiction", "proxy"}
    ensures Resolve(snapshot, overrides[k := v]) == Resolve(snapshot, overrides)
    ensures Resolve(snapshot[k := v], overrides) == Resolve(snapshot, overrides)
  {
  }
}
