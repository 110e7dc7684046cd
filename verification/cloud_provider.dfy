/** The provider factory of the multi-cloud command-line tool
    (pkg/cloudmux/cloudprovider/cloudprovider.go): a current factory, and a
    cache of the providers built so far, keyed by factory name.

    A concrete factory (`IProviderFactory`) is reduced to its name and
    credentials; building its provider is the parameter `build`, whose
    outcome the model does not look inside. The names of the factories
    whose providers were built are kept, in order, so that "built again"
    and "served from the cache" can be told apart. */
module CloudProvider {
  import opened Wrappers

  /** An opaque provider value. */
  datatype Provider = Provider(id: nat)

  /** A concrete factory: its name and the credentials that decide whether
      it is initialised. */
  datatype Factory = Factory(name: string, accessKey: string, secret: string)

  /** `IsInit` of the Aliyun and AWS factories: both credentials are set. */
  predicate FactoryIsInit(f: Factory)
  {
    f.accessKey != "" && f.secret != ""
  }

  /** `SProviderFactory`. */
  datatype ProviderFactory = ProviderFactory(
    cache: map<string, Provider>,
    current: Option<Factory>,
    built: seq<string>)

  datatype Reply = Reply(pf: ProviderFactory, res: Result<Provider>)

  /** `NewProviderFactory`: no current factory, nothing cached. */
  function NewProviderFactory(): (r: ProviderFactory)
    ensures !IsInit(r) && r.cache == map[] && r.built == []
  {
    ProviderFactory(map[], None, [])
  }

  /** `IsInit`: a current factory has been chosen. */
  predicate IsInit(pf: ProviderFactory)
  {
    pf.current.Some?
  }

  /** `Use`: the given factory becomes the current one; the cache is kept. */
  function Use(pf: ProviderFactory, f: Factory): (r: ProviderFactory)
    ensures IsInit(r) && r.current == Some(f)
    ensures r.cache == pf.cache && r.built == pf.built
  {
    pf.(current := Some(f))
  }

  /** `GetProvider`: without a current factory it fails; a provider cached
      under the current factory's name is returned as is; otherwise the
      provider is built, and cached under that name only when the build
      succeeds. */
  function GetProvider(pf: ProviderFactory, build: Factory -> Result<Provider>): (r: Reply)
    ensures !IsInit(pf) ==> r == Reply(pf, Err(InvalidStatus))
    ensures IsInit(pf) && pf.current.value.name in pf.cache ==>
              r == Reply(pf, Ok(pf.cache[pf.current.value.name]))
    ensures IsInit(pf) && pf.current.value.name !in pf.cache ==>
              var f := pf.current.value;
              r.pf.built == pf.built + [f.name] && r.pf.current == pf.current &&
              r.res == build(f) &&
              r.pf.cache == (if build(f).Ok? then pf.cache[f.name := build(f).value] else pf.cache)
  {
    match pf.current
    case None => Reply(pf, Err(InvalidStatus))
    case Some(f) =>
      if f.name in pf.cache then Reply(pf, Ok(pf.cache[f.name]))
      else
        var built := pf.(built := pf.built + [f.name]);
        match build(f)
        case Err(e) => Reply(built, Err(e))
        case Ok(p) => Reply(built.(cache := pf.cache[f.name := p]), Ok(p))
  }

  /** Once a provider has been served, asking again serves the same
      provider without building anything, whatever a build would now
      give. */
  lemma GetProviderMemoised(pf: ProviderFactory, build: Factory -> Result<Provider>,
                            rebuild: Factory -> Result<Provider>)
    requires GetProvider(pf, build).res.Ok?
    ensures var first := GetProvider(pf, build);
            GetProvider(first.pf, rebuild) == Reply(first.pf, first.res)
  {
    var first := GetProvider(pf, build);
    assert first.pf.current == pf.current;
  }

  /** A failed build caches nothing, so the next request builds again. */
  lemma FailedBuildRetried(pf: ProviderFactory, build: Factory -> Result<Provider>,
                           rebuild: Factory -> Result<Provider>)
    requires IsInit(pf) && GetProvider(pf, build).res.Err?
    ensures var first := GetProvider(pf, build);
            first.pf.cache == pf.cache &&
            GetProvider(first.pf, rebuild).pf.built == first.pf.built + [pf.current.value.name]
  {
  }
}
