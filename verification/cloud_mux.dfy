/** The factory selection of the multi-cloud command-line tool
    (pkg/cloudmux/cmcli/util/cmd/factory_impl.go): the Aliyun and AWS
    factories are registered in that order, and the first one with
    credentials supplies the provider. The debug flag is not modelled. */
module CloudMux {
  import opened Wrappers
  import CloudProvider

  const ALIYUN: string := "aliyun"
  const AWS: string := "aws"

  /** `CloudMuxOptions`, reduced to its factory list. */
  datatype Options = Options(factories: seq<CloudProvider.Factory>)

  /** `addFactory`: the factories are appended after the existing ones. */
  function AddFactory(opt: Options, fs: seq<CloudProvider.Factory>): (r: Options)
    ensures |r.factories| == |opt.factories| + |fs|
    ensures opt.factories <= r.factories
    ensures r.factories[|opt.factories|..] == fs
  {
    opt.(factories := opt.factories + fs)
  }

  /** `NewCloudMuxOptions`, through `initAliyunFlag` and `initAWSFlag`:
      the Aliyun factory, then the AWS factory, each with the credentials
      given on the command line. */
  function NewOptions(aliyunKey: string, aliyunSecret: string, awsKey: string, awsSecret: string): (r: Options)
    ensures |r.factories| == 2
    ensures r.factories[0] == CloudProvider.Factory(ALIYUN, aliyunKey, aliyunSecret)
    ensures r.factories[1] == CloudProvider.Factory(AWS, awsKey, awsSecret)
  {
    var withAliyun := AddFactory(Options([]), [CloudProvider.Factory(ALIYUN, aliyunKey, aliyunSecret)]);
    AddFactory(withAliyun, [CloudProvider.Factory(AWS, awsKey, awsSecret)])
  }

  /** The first initialised factory of the list, by position. */
  function FirstInit(fs: seq<CloudProvider.Factory>): (r: Option<nat>)
    ensures r.None? <==> forall k :: 0 <= k < |fs| ==> !CloudProvider.FactoryIsInit(fs[k])
    ensures r.Some? ==> r.value < |fs| && CloudProvider.FactoryIsInit(fs[r.value]) &&
                        forall k :: 0 <= k < r.value ==> !CloudProvider.FactoryIsInit(fs[k])
  {
    if |fs| == 0 then None
    else if CloudProvider.FactoryIsInit(fs[0]) then Some(0)
    else match FirstInit(fs[1..])
      case None => None
      case Some(k) => Some(k + 1)
  }

  /** `GetProvider`: the first initialised factory in registration order
      becomes the current factory of a fresh provider factory, whose
      provider is then built; with no initialised factory it fails. */
  function GetProvider(opt: Options, build: CloudProvider.Factory -> Result<CloudProvider.Provider>)
    : (r: Result<CloudProvider.Provider>)
    ensures FirstInit(opt.factories).None? ==> r == Err(NotFound)
    ensures FirstInit(opt.factories).Some? ==> r == build(opt.factories[FirstInit(opt.factories).value])
  {
    match FirstInit(opt.factories)
    case None => Err(NotFound)
    case Some(k) =>
      var pf := CloudProvider.Use(CloudProvider.NewProviderFactory(), opt.factories[k]);
      CloudProvider.GetProvider(pf, build).res
  }

  /** With both sets of credentials given, Aliyun wins; AWS is chosen only
      when Aliyun lacks a credential. */
  lemma AliyunFirst(aliyunKey: string, aliyunSecret: string, awsKey: string, awsSecret: string,
                    build: CloudProvider.Factory -> Result<CloudProvider.Provider>)
    ensures var opt := NewOptions(aliyunKey, aliyunSecret, awsKey, awsSecret);
            (aliyunKey != "" && aliyunSecret != "" ==>
               GetProvider(opt, build) == build(CloudProvider.Factory(ALIYUN, aliyunKey, aliyunSecret))) &&
            ((aliyunKey == "" || aliyunSecret == "") && awsKey != "" && awsSecret != "" ==>
               GetProvider(opt, build) == build(CloudProvider.Factory(AWS, awsKey, awsSecret))) &&
            ((aliyunKey == "" || aliyunSecret == "") && (awsKey == "" || awsSecret == "") ==>
               GetProvider(opt, build) == Err(NotFound))
  {
    var opt := NewOptions(aliyunKey, aliyunSecret, awsKey, awsSecret);
    if aliyunKey == "" || aliyunSecret == "" {
      assert !CloudProvider.FactoryIsInit(opt.factories[0]);
    }
  }
}
