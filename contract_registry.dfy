/**
 * The contract artifact table of `Contracts.ts`: for each logical contract an
 * ABI and a deployed address per network, and how a configuration that carries
 * its own table replaces the module-level one.
 */
module ContractRegistry {
  import opened Wrappers
  import opened JsonValues

  /** The values of `ContractTypes` used as keys of the artifact table. */
  datatype ContractType = Identity | DAVToken | BasicMission

  datatype Network = Network(address: string)

  /** One contract artifact: its ABI and its deployment per network id. */
  datatype Artifact = Artifact(abi: seq<Json>, networks: map<string, Network>)

  type Table = map<ContractType, Artifact>

  /** `IConfig` as far as this core reads it; `contracts` is `None` when not supplied. */
  datatype Config = Config(ethNodeUrl: string, blockchainType: string, contracts: Option<Table>)

  /** `IContract` without the web3 contract object: the ABI and the address it is built from. */
  datatype Handle = Handle(abi: seq<Json>, contractAddress: string)

  /** The source reads `.abi` / `.networks[...].address` of `undefined` and throws a TypeError. */
  datatype RegistryError = UnknownContract(contractType: ContractType, blockchainType: string)

  /** The table in force after a call with `config`: its own table when it carries one. */
  function EffectiveTable(current: Table, config: Config): (t: Table)
    ensures config.contracts.Some? ==> t == config.contracts.value
    ensures config.contracts.None? ==> t == current
  {
    if config.contracts.Some? then config.contracts.value else current
  }

  /** Looking up the ABI and the address of `contractType` on network `blockchainType`. */
  function Resolve(table: Table, contractType: ContractType, blockchainType: string): (r: Result<Handle, RegistryError>)
    ensures r.Success? <==> contractType in table && blockchainType in table[contractType].networks
    ensures r.Success? ==> r.value.abi == table[contractType].abi
    ensures r.Success? ==> r.value.contractAddress == table[contractType].networks[blockchainType].address
    ensures r.Failure? ==> r.error == UnknownContract(contractType, blockchainType)
  {
    if contractType !in table then Failure(UnknownContract(contractType, blockchainType))
    else
      var artifact := table[contractType];
      if blockchainType !in artifact.networks then Failure(UnknownContract(contractType, blockchainType))
      else Success(Handle(artifact.abi, artifact.networks[blockchainType].address))
  }

  /** The module-level table after a sequence of calls with the given configurations. */
  function TableAfter(initial: Table, configs: seq<Config>): (t: Table)
    ensures t == initial || exists j :: 0 <= j < |configs| && configs[j].contracts == Some(t)
  {
    if |configs| == 0 then initial
    else EffectiveTable(TableAfter(initial, configs[..|configs| - 1]), configs[|configs| - 1])
  }

  /** An override is permanent: once a call supplies a table, every later call that supplies
      none still sees that table. */
  lemma {:induction false} OverridePersists(initial: Table, configs: seq<Config>, i: nat)
    requires i < |configs| && configs[i].contracts.Some?
    requires forall j :: i < j < |configs| ==> configs[j].contracts.None?
    ensures TableAfter(initial, configs) == configs[i].contracts.value
    decreases |configs|
  {
    if i < |configs| - 1 {
      var init := configs[..|configs| - 1];
      assert forall j :: i < j < |init| ==> init[j] == configs[j];
      OverridePersists(initial, init, i);
    }
  }

  /** Without any override the built-in table stays in force. */
  lemma {:induction false} NoOverrideKeepsTable(initial: Table, configs: seq<Config>)
    requires forall j :: 0 <= j < |configs| ==> configs[j].contracts.None?
    ensures TableAfter(initial, configs) == initial
    decreases |configs|
  {
    if |configs| > 0 {
      var init := configs[..|configs| - 1];
      assert forall j :: 0 <= j < |init| ==> init[j] == configs[j];
      NoOverrideKeepsTable(initial, init);
    }
  }
}
