/** Runtime instances of a guest on the host (pkg/hostman/guestman/runtime.go):
    where a guest's files live, which kind of instance a hypervisor name
    gives, and the normalisation applied when a descriptor is saved —
    bridges filled in where missing and the default-gateway flag fixed so
    that at most one NIC carries it. */
module GuestRuntime {
  import opened Wrappers
  import Strings
  import Apis

  /** The two kinds of runtime instance. */
  datatype InstanceKind = KvmInstance | PodInstance

  /** `NewRuntimeInstance`: "kvm" or the empty name give a KVM instance,
      "pod" a pod instance; any other name stops the process. */
  function NewRuntimeInstance(hypervisor: string): (r: Result<InstanceKind>)
    ensures r == Ok(KvmInstance) <==> hypervisor == Apis.HYPERVISOR_KVM || hypervisor == ""
    ensures r == Ok(PodInstance) <==> hypervisor == Apis.HYPERVISOR_POD
    ensures r.Err? ==> r.error == Fatal
  {
    if hypervisor == Apis.HYPERVISOR_KVM || hypervisor == "" then Ok(KvmInstance)
    else if hypervisor == Apis.HYPERVISOR_POD then Ok(PodInstance)
    else Err(Fatal)
  }

  /** `HomeDir`: the guest's directory, named by its id, directly under
      the servers path. */
  function HomeDir(serversPath: string, id: string): (r: string)
    ensures serversPath != "" && id != "" ==> r == serversPath + "/" + id
    ensures r == "" <==> serversPath == "" && id == ""
  {
    Strings.PathJoin(serversPath, id)
  }

  /** `GetDescFilePath`: the file `desc` directly inside the home
      directory. */
  function DescFilePath(serversPath: string, id: string): (r: string)
    ensures HomeDir(serversPath, id) != "" ==> r == HomeDir(serversPath, id) + "/desc"
  {
    Strings.PathJoin(HomeDir(serversPath, id), "desc")
  }

  /** `GetSourceDescFilePath`: the file `source-desc` directly inside the
      home directory, never the descriptor file itself. */
  function SourceDescFilePath(serversPath: string, id: string): (r: string)
    ensures HomeDir(serversPath, id) != "" ==> r == HomeDir(serversPath, id) + "/source-desc"
    ensures r != DescFilePath(serversPath, id)
  {
    Strings.PathJoin(HomeDir(serversPath, id), "source-desc")
  }

  /** Guests with different ids under one servers path have different home
      directories. */
  lemma HomeDirsDistinct(serversPath: string, a: string, b: string)
    requires serversPath != "" && a != "" && b != "" && a != b
    ensures HomeDir(serversPath, a) != HomeDir(serversPath, b)
  {
    if HomeDir(serversPath, a) == HomeDir(serversPath, b) {
      Strings.PathJoinInjective(serversPath, a, b);
    }
  }

  /** Both descriptor files sit directly inside the home directory, under
      different names. */
  lemma DescFilesInHome(serversPath: string, id: string)
    requires HomeDir(serversPath, id) != ""
    ensures DescFilePath(serversPath, id) == HomeDir(serversPath, id) + "/desc"
    ensures SourceDescFilePath(serversPath, id) == HomeDir(serversPath, id) + "/source-desc"
    ensures DescFilePath(serversPath, id) != SourceDescFilePath(serversPath, id)
  {
    var h := HomeDir(serversPath, id);
    assert |h + "/desc"| != |h + "/source-desc"|;
  }

  /** The parts of a guest NIC the normalisation reads or writes. */
  datatype Nic = Nic(ip: string, mac: string, gateway: string, bridge: string, isDefault: bool)

  /** The parts of a guest descriptor the normalisation touches. */
  datatype GuestDesc = GuestDesc(uuid: string, nics: seq<Nic>)

  /** A NIC with its bridge filled in when it was empty; `bridgeOf` stands
      for `getNicBridge`. */
  function FillBridge(nic: Nic, bridgeOf: Nic -> string): Nic
  {
    if nic.bridge == "" then nic.(bridge := bridgeOf(nic)) else nic
  }

  /** The bridge-filling loop of `SaveDesc` and `SaveLiveDesc`. */
  function FillBridges(nics: seq<Nic>, bridgeOf: Nic -> string): (r: seq<Nic>)
    ensures |r| == |nics|
    ensures forall i :: 0 <= i < |nics| && nics[i].bridge != "" ==> r[i] == nics[i]
    ensures forall i :: 0 <= i < |nics| && nics[i].bridge == "" ==>
              r[i] == nics[i].(bridge := bridgeOf(nics[i]))
  {
    if |nics| == 0 then [] else [FillBridge(nics[0], bridgeOf)] + FillBridges(nics[1..], bridgeOf)
  }

  /** Filling twice is filling once. */
  lemma FillBridgesIdempotent(nics: seq<Nic>, bridgeOf: Nic -> string)
    ensures FillBridges(FillBridges(nics, bridgeOf), bridgeOf) == FillBridges(nics, bridgeOf)
  {
    var once := FillBridges(nics, bridgeOf);
    var twice := FillBridges(once, bridgeOf);
    forall i | 0 <= i < |nics|
      ensures twice[i] == once[i]
    {
      if nics[i].bridge == "" && bridgeOf(nics[i]) == "" {
        assert once[i] == nics[i];
      }
    }
  }

  /** Number of NICs flagged as the default gateway. */
  function DefaultCount(nics: seq<Nic>): nat
  {
    if |nics| == 0 then 0 else (if nics[0].isDefault then 1 else 0) + DefaultCount(nics[1..])
  }

  /** The NICs with the default flag set exactly at `index`. */
  function FlagOnly(nics: seq<Nic>, index: int): (r: seq<Nic>)
    ensures |r| == |nics|
    ensures forall i :: 0 <= i < |nics| ==> r[i] == nics[i].(isDefault := i == index)
  {
    if |nics| == 0 then [] else [nics[0].(isDefault := index == 0)] + FlagOnly(nics[1..], index - 1)
  }

  /** A list flagged at most at one index has at most one default, and
      exactly one when that index is in range. */
  lemma {:induction false} FlagOnlyCount(nics: seq<Nic>, index: int)
    ensures DefaultCount(FlagOnly(nics, index)) == (if 0 <= index < |nics| then 1 else 0)
  {
    if |nics| > 0 {
      FlagOnlyCount(nics[1..], index - 1);
      var r := FlagOnly(nics, index);
      assert r[1..] == FlagOnly(nics[1..], index - 1);
    }
  }

  /** The default-gateway fix of `SaveLiveDesc`: with exactly one default
      NIC nothing changes; otherwise the NIC at `defIndex` (the choice of
      `FindDefaultNicMac`) becomes the only default. */
  function FixDefault(nics: seq<Nic>, defIndex: int): (r: seq<Nic>)
    ensures |r| == |nics|
    ensures DefaultCount(r) <= 1
    ensures DefaultCount(nics) == 1 ==> r == nics
    ensures DefaultCount(nics) != 1 ==> forall i :: 0 <= i < |r| ==> (r[i].isDefault <==> i == defIndex)
    ensures forall i :: 0 <= i < |r| ==> r[i].(isDefault := nics[i].isDefault) == nics[i]
  {
    if DefaultCount(nics) == 1 then nics
    else
      FlagOnlyCount(nics, defIndex);
      FlagOnly(nics, defIndex)
  }

  /** Fixing an already fixed list with the same choice changes nothing. */
  lemma FixDefaultIdempotent(nics: seq<Nic>, defIndex: int)
    ensures FixDefault(FixDefault(nics, defIndex), defIndex) == FixDefault(nics, defIndex)
  {
    var once := FixDefault(nics, defIndex);
    if DefaultCount(nics) != 1 && DefaultCount(once) != 1 {
      assert FixDefault(once, defIndex) == FlagOnly(once, defIndex);
      assert forall i :: 0 <= i < |once| ==> FlagOnly(once, defIndex)[i] == once[i];
    }
  }

  /** `SaveLiveDesc`: the live descriptor with bridges filled and the
      default flag fixed; `chooseDefault` stands for `FindDefaultNicMac`
      over the NICs' addresses. */
  function SaveLiveDesc(live: GuestDesc, bridgeOf: Nic -> string, chooseDefault: seq<Nic> -> int): (r: GuestDesc)
    ensures r.uuid == live.uuid && |r.nics| == |live.nics|
    ensures DefaultCount(r.nics) <= 1
    ensures forall i :: 0 <= i < |live.nics| ==>
              r.nics[i].ip == live.nics[i].ip && r.nics[i].mac == live.nics[i].mac &&
              r.nics[i].gateway == live.nics[i].gateway &&
              r.nics[i].bridge == FillBridge(live.nics[i], bridgeOf).bridge
    ensures DefaultCount(live.nics) == 1 ==> r.nics == FillBridges(live.nics, bridgeOf)
  {
    var filled := FillBridges(live.nics, bridgeOf);
    FillBridgesKeepsDefaults(live.nics, bridgeOf);
    live.(nics := FixDefault(filled, chooseDefault(filled)))
  }

  /** Filling bridges does not touch the default flags. */
  lemma {:induction false} FillBridgesKeepsDefaults(nics: seq<Nic>, bridgeOf: Nic -> string)
    ensures DefaultCount(FillBridges(nics, bridgeOf)) == DefaultCount(nics)
  {
    if |nics| > 0 {
      FillBridgesKeepsDefaults(nics[1..], bridgeOf);
      assert FillBridges(nics, bridgeOf)[1..] == FillBridges(nics[1..], bridgeOf);
    }
  }

  /** The two descriptors a guest keeps: the source descriptor from the
      control plane and the live descriptor derived from it. */
  datatype Descs = Descs(source: GuestDesc, live: GuestDesc)

  /** `SaveDesc`: the new source descriptor, bridges filled, replaces the
      old one; the live descriptor is re-derived from it only when the
      guest is not running. */
  function SaveDesc(descs: Descs, source: GuestDesc, running: bool,
                    bridgeOf: Nic -> string, chooseDefault: seq<Nic> -> int): (r: Descs)
    ensures r.source.uuid == source.uuid && r.source.nics == FillBridges(source.nics, bridgeOf)
    ensures running ==> r.live == descs.live
    ensures !running ==> r.live.uuid == source.uuid && |r.live.nics| == |source.nics| &&
                         DefaultCount(r.live.nics) <= 1
    ensures !running && DefaultCount(source.nics) == 1 ==> r.live == r.source
  {
    var saved := source.(nics := FillBridges(source.nics, bridgeOf));
    if running then Descs(saved, descs.live)
    else
      FillBridgesIdempotent(source.nics, bridgeOf);
      FillBridgesKeepsDefaults(source.nics, bridgeOf);
      Descs(saved, SaveLiveDesc(saved, bridgeOf, chooseDefault))
  }
}
