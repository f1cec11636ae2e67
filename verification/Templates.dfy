/** Builder templates on the wire and in the custom resource. Quantity parsing and printing are
    parameters; the laws assume only that a printed quantity parses to itself. */
module Templates {
  import opened Wrappers

  datatype Quantity = Quantity(amount: int, format: string)
  type Parser = string -> Option<Quantity>
  type Printer = Quantity -> string

  datatype PVCConfig = PVCConfig(size: string, storageClassName: string, accessModes: seq<string>)
  datatype S3Config = S3Config(bucket: string, region: string, endpoint: string)
  /** The same three fields on the wire and in the resource. */
  datatype CacheConfig = CacheConfig(kind: string, pvc: Option<PVCConfig>, s3: Option<S3Config>)

  datatype ResourceStrings = ResourceStrings(limits: map<string, string>, requests: map<string, string>)
  datatype ResourceQuantities = ResourceQuantities(limits: map<string, Quantity>, requests: map<string, Quantity>)

  datatype TemplateSpec = TemplateSpec(buildkitImage: string, rootless: bool, arch: string,
                                       resources: Option<ResourceStrings>, cacheConfig: Option<CacheConfig>)
  datatype TemplateResource = TemplateResource(buildkitImage: string, rootless: bool, arch: string,
                                               resources: ResourceQuantities, cacheConfig: CacheConfig)

  const NO_RESOURCES := ResourceQuantities(map[], map[])
  const NO_CACHE := CacheConfig("", None, None)

  function Parsed(parse: Parser, m: map<string, string>): map<string, Quantity> {
    map k | k in m && parse(m[k]).Some? :: parse(m[k]).value
  }

  function Printed(show: Printer, m: map<string, Quantity>): map<string, string> {
    map k | k in m :: show(m[k])
  }

  function ReadResources(show: Printer, q: ResourceQuantities): Option<ResourceStrings> {
    if q.limits == map[] && q.requests == map[] then None
    else Some(ResourceStrings(Printed(show, q.limits), Printed(show, q.requests)))
  }

  function WriteResources(parse: Parser, r: Option<ResourceStrings>): ResourceQuantities {
    if r.None? then NO_RESOURCES
    else ResourceQuantities(Parsed(parse, r.value.limits), Parsed(parse, r.value.requests))
  }

  function Read(show: Printer, t: TemplateResource): TemplateSpec {
    TemplateSpec(t.buildkitImage, t.rootless, t.arch, ReadResources(show, t.resources), Some(t.cacheConfig))
  }

  function Write(parse: Parser, s: TemplateSpec): TemplateResource {
    TemplateResource(s.buildkitImage, s.rootless, s.arch, WriteResources(parse, s.resources),
                     if s.cacheConfig.Some? then s.cacheConfig.value else NO_CACHE)
  }

  /** The only law assumed of the quantity library. */
  ghost predicate PrintsParse(parse: Parser, show: Printer) {
    forall q :: parse(show(q)) == Some(q)
  }

  lemma ParsedPrinted(parse: Parser, show: Printer, m: map<string, Quantity>)
    requires PrintsParse(parse, show)
    ensures Parsed(parse, Printed(show, m)) == m
  {
    forall k | k in m ensures parse(Printed(show, m)[k]) == Some(m[k]) {
    }
  }

  /** Writing back what was read stores the same resource. */
  lemma WriteRead(parse: Parser, show: Printer, t: TemplateResource)
    requires PrintsParse(parse, show)
    ensures Write(parse, Read(show, t)) == t
  {
    ParsedPrinted(parse, show, t.resources.limits);
    ParsedPrinted(parse, show, t.resources.requests);
  }

  /** What a reader sees after a spec was written. */
  function Normal(parse: Parser, show: Printer, s: TemplateSpec): TemplateSpec {
    Read(show, Write(parse, s))
  }

  lemma NormalIsFixpoint(parse: Parser, show: Printer, s: TemplateSpec)
    requires PrintsParse(parse, show)
    ensures Normal(parse, show, Normal(parse, show, s)) == Normal(parse, show, s)
  {
    WriteRead(parse, show, Write(parse, s));
  }

  predicate NothingParses(parse: Parser, m: map<string, string>) {
    forall k | k in m :: parse(m[k]).None?
  }

  /** Exactly the entries that parse survive, re-printed; a block without any becomes absent. */
  lemma NormalKeepsWhatParses(parse: Parser, show: Printer, s: TemplateSpec, r: ResourceStrings)
    requires s.resources == Some(r)
    ensures Normal(parse, show, s).resources.None? <==>
            NothingParses(parse, r.limits) && NothingParses(parse, r.requests)
    ensures Normal(parse, show, s).resources.Some? ==>
              var n := Normal(parse, show, s).resources.value;
              && (forall k :: k in n.limits <==> k in r.limits && parse(r.limits[k]).Some?)
              && (forall k | k in n.limits :: n.limits[k] == show(parse(r.limits[k]).value))
              && (forall k :: k in n.requests <==> k in r.requests && parse(r.requests[k]).Some?)
              && (forall k | k in n.requests :: n.requests[k] == show(parse(r.requests[k]).value))
  {
    EmptyIff(parse, r.limits);
    EmptyIff(parse, r.requests);
  }

  lemma EmptyIff(parse: Parser, m: map<string, string>)
    ensures Parsed(parse, m) == map[] <==> NothingParses(parse, m)
  {
    if !NothingParses(parse, m) {
      var k :| k in m && parse(m[k]).Some?;
      assert k in Parsed(parse, m);
    }
  }

  /** The parsing loop, in whatever order the map yields its entries. */
  method ParseEntries(parse: Parser, m: map<string, string>) returns (r: map<string, Quantity>)
    ensures r == Parsed(parse, m)
  {
    r := map[];
    var todo := m.Keys;
    while todo != {}
      invariant todo <= m.Keys
      invariant r == Parsed(parse, map k | k in m && k !in todo :: m[k])
      decreases |todo|
    {
      var k :| k in todo;
      todo := todo - {k};
      var q := parse(m[k]);
      if q.Some? {
        r := r[k := q.value];
      }
    }
    assert m == map k | k in m && k !in todo :: m[k];
  }

  method PrintEntries(show: Printer, m: map<string, Quantity>) returns (r: map<string, string>)
    ensures r == Printed(show, m)
  {
    r := map[];
    var todo := m.Keys;
    while todo != {}
      invariant todo <= m.Keys
      invariant r == Printed(show, map k | k in m && k !in todo :: m[k])
      decreases |todo|
    {
      var k :| k in todo;
      todo := todo - {k};
      r := r[k := show(m[k])];
    }
    assert m == map k | k in m && k !in todo :: m[k];
  }

  method ResourceRequirementsToProto(show: Printer, q: ResourceQuantities) returns (r: Option<ResourceStrings>)
    ensures r == ReadResources(show, q)
  {
    if |q.limits| == 0 && |q.requests| == 0 {
      return None;
    }
    var limits, requests := map[], map[];
    if |q.limits| > 0 {
      limits := PrintEntries(show, q.limits);
    }
    if |q.requests| > 0 {
      requests := PrintEntries(show, q.requests);
    }
    return Some(ResourceStrings(limits, requests));
  }

  method ProtoToResourceRequirements(parse: Parser, r: Option<ResourceStrings>) returns (q: ResourceQuantities)
    ensures q == WriteResources(parse, r)
  {
    if r.None? {
      return NO_RESOURCES;
    }
    var limits, requests := map[], map[];
    if |r.value.limits| > 0 {
      limits := ParseEntries(parse, r.value.limits);
    }
    if |r.value.requests| > 0 {
      requests := ParseEntries(parse, r.value.requests);
    }
    return ResourceQuantities(limits, requests);
  }

  method TemplateSpecToProto(show: Printer, t: TemplateResource) returns (s: TemplateSpec)
    ensures s == Read(show, t)
  {
    var resources := ResourceRequirementsToProto(show, t.resources);
    return TemplateSpec(t.buildkitImage, t.rootless, t.arch, resources, Some(t.cacheConfig));
  }

  method ProtoSpecToTemplateSpec(parse: Parser, s: TemplateSpec) returns (t: TemplateResource)
    ensures t == Write(parse, s)
  {
    var resources := ProtoToResourceRequirements(parse, s.resources);
    return TemplateResource(s.buildkitImage, s.rootless, s.arch, resources,
                            if s.cacheConfig.Some? then s.cacheConfig.value else NO_CACHE);
  }
}
