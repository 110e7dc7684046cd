/** The command-line options for creating a container
    (pkg/mcclient/options/compute/containers.go): environment variables
    given as `key=value`, and the create request built from the options. */
module ContainerOptions {
  import opened Wrappers
  import Strings

  /** `ContainerKeyValue`. */
  datatype KeyValue = KeyValue(key: string, value: string)

  /** `ContainerCreateOptions`. */
  datatype CreateOptions = CreateOptions(
    podId: string,
    name: string,
    image: string,
    command: seq<string>,
    args: seq<string>,
    workingDir: string,
    env: seq<string>)

  /** The parts of `ContainerSpec` the options fill in. */
  datatype Spec = Spec(image: string, command: seq<string>, args: seq<string>, workingDir: string,
                       envs: seq<KeyValue>)

  /** `ContainerCreateInput`. */
  datatype CreateInput = CreateInput(guestId: string, name: string, spec: Spec)

  /** `parseContainerEnv`: the string must split on "=" into exactly two
      pieces, the key and the value; so it needs exactly one "=", and
      "a", "a=b=c" and "==" are all refused. */
  function ParseEnv(env: string): (r: Result<KeyValue>)
    ensures r.Ok? <==> Strings.Count(env, '=') == 1
    ensures r.Err? ==> r.error == InvalidFormat
    ensures r.Ok? ==> '=' !in r.value.key && '=' !in r.value.value && r.value.key + "=" + r.value.value == env
  {
    match Strings.SplitPair(env, '=')
    case None => Err(InvalidFormat)
    case Some((k, v)) => Ok(KeyValue(k, v))
  }

  /** A key and value without "=" print to a string that parses back to
      them. */
  lemma ParseEnvRoundTrip(kv: KeyValue)
    requires '=' !in kv.key && '=' !in kv.value
    ensures ParseEnv(kv.key + "=" + kv.value) == Ok(kv)
  {
    Strings.SplitPairRoundTrip(kv.key, kv.value, '=');
  }

  /** The env loop of `Params`: one entry per input string, in order; the
      first malformed string aborts with no list at all. */
  function ParseEnvs(envs: seq<string>): (r: Result<seq<KeyValue>>)
    ensures r.Ok? <==> forall i :: 0 <= i < |envs| ==> ParseEnv(envs[i]).Ok?
    ensures r.Err? ==> r.error == InvalidFormat
    ensures r.Ok? ==> |r.value| == |envs| && forall i :: 0 <= i < |envs| ==> Ok(r.value[i]) == ParseEnv(envs[i])
  {
    if |envs| == 0 then Ok([])
    else
      var kv :- ParseEnv(envs[0]);
      var rest :- ParseEnvs(envs[1..]);
      Ok([kv] + rest)
  }

  /** `ContainerCreateOptions.Params`: the pod and name, the image,
      command, arguments and working directory are copied unchanged, and
      the environment list is parsed; no environment gives an empty
      list. */
  function Params(o: CreateOptions): (r: Result<CreateInput>)
    ensures r.Ok? <==> ParseEnvs(o.env).Ok?
    ensures r.Err? ==> r.error == InvalidFormat
    ensures r.Ok? ==> r.value.guestId == o.podId && r.value.name == o.name &&
                      r.value.spec.image == o.image && r.value.spec.command == o.command &&
                      r.value.spec.args == o.args && r.value.spec.workingDir == o.workingDir &&
                      r.value.spec.envs == ParseEnvs(o.env).value
    ensures o.env == [] ==> r.Ok? && r.value.spec.envs == []
  {
    var envs :- ParseEnvs(o.env);
    Ok(CreateInput(o.podId, o.name, Spec(o.image, o.command, o.args, o.workingDir, envs)))
  }

  /** The printed form of a list of variables. */
  function FormatEnvs(kvs: seq<KeyValue>): (r: seq<string>)
    ensures |r| == |kvs|
    ensures forall i :: 0 <= i < |kvs| ==> r[i] == kvs[i].key + "=" + kvs[i].value
  {
    if |kvs| == 0 then [] else [kvs[0].key + "=" + kvs[0].value] + FormatEnvs(kvs[1..])
  }

  /** Printed variables parse back to themselves, in order. */
  lemma {:induction false} ParseFormattedEnvs(kvs: seq<KeyValue>)
    requires forall i :: 0 <= i < |kvs| ==> '=' !in kvs[i].key && '=' !in kvs[i].value
    ensures ParseEnvs(FormatEnvs(kvs)) == Ok(kvs)
  {
    if |kvs| > 0 {
      ParseEnvRoundTrip(kvs[0]);
      ParseFormattedEnvs(kvs[1..]);
      assert FormatEnvs(kvs)[1..] == FormatEnvs(kvs[1..]);
      assert kvs == [kvs[0]] + kvs[1..];
    }
  }
}
