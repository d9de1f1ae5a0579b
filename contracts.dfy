/**
 * `Contracts`: the module-level artifact table with `getContract`, and the
 * workflows that assemble the transaction each of them signs and sends.
 * Everything the node answers (registration status, gas estimates, gas price,
 * transaction count) comes in through a `Node` value; the model stops at the
 * unsigned transaction, which the source then signs and submits.
 */
module Contracts {
  import opened Wrappers
  import opened ContractRegistry
  import opened GasAndPrice
  import EventWatcher

  /** `TOKEN_AMOUNT`: the allowance approved and the amount a mission is created with. */
  const TokenAmount: string := "1500000000000"

  /** The (v, r, s) signature over the registration digest made with the identity's key. */
  datatype Signature = Signature(v: string, r: string, s: string)

  /** The contract call a transaction's `data` encodes (`encodeABI()` of that call). */
  datatype Call =
    | Register(davId: string, signature: Signature)
    | Approve(spender: string, amount: string)
    | Create(missionId: string, vehicleId: string, davId: string, amount: string)
    | Fulfilled(missionId: string)

  /** The `{from, to}` object handed to `estimateGas`. */
  datatype GasQuery = GasQuery(from: string, to: Option<string>)

  /** A numeric field of a transaction: as the node gave it, or passed through `toHex`. */
  datatype Quantity = Plain(n: int) | Hex(n: int)

  /** The transaction record handed to `signTransaction`. */
  datatype Tx = Tx(nonce: Option<Quantity>, data: Call, to: string, from: string, gas: Quantity, gasPrice: Quantity)

  /** What a workflow ends with: the registration sentinel, or the transaction to sign and
      send together with the query its gas limit was estimated from. */
  datatype Outcome = AlreadyRegistered | ToSend(query: GasQuery, tx: Tx)

  /** The node's answers: `isRegistered(davId).call()` on the Identity contract at an address,
      `estimateGas` of a call, `getGasPrice`, and `getTransactionCount` of an account. */
  datatype Node = Node(
    isRegistered: (string, string) -> bool,
    estimateGas: (Call, GasQuery) -> int,
    gasPrice: int,
    transactionCount: string -> int)

  /** The transaction shape of `registerIdentity`, `approveMission` and `finalizeMission`:
      no nonce, the gas limit and the gas price as the node's numbers. */
  function PlainTx(data: Call, to: string, from: string, estimate: int, gasPrice: int): (tx: Tx)
    ensures tx.nonce.None? && tx.data == data && tx.to == to && tx.from == from
    ensures tx.gas == Plain(ToSafeGasLimit(estimate)) && tx.gas.n <= GasCap
    ensures tx.gasPrice == Plain(gasPrice)
  {
    Tx(None, data, to, from, Plain(ToSafeGasLimit(estimate)), Plain(gasPrice))
  }

  /** The transaction shape of `startMission`: nonce, gas limit and gas price all through `toHex`. */
  function HexTx(nonce: int, data: Call, to: string, from: string, estimate: int, gasPrice: int): (tx: Tx)
    ensures tx.nonce == Some(Hex(nonce)) && tx.data == data && tx.to == to && tx.from == from
    ensures tx.gas == Hex(ToSafeGasLimit(estimate)) && tx.gas.n <= GasCap
    ensures tx.gasPrice == Hex(gasPrice)
  {
    Tx(Some(Hex(nonce)), data, to, from, Hex(ToSafeGasLimit(estimate)), Hex(gasPrice))
  }

  class Contracts {
    /** The module-level `contracts` table. */
    var contracts: Table

    /** The table starts as the bundled artifacts. */
    constructor (bundled: Table)
      ensures contracts == bundled
    {
      contracts := bundled;
    }

    /** `getContract`: a configuration carrying `contracts` replaces the table for good, then
        the contract is looked up in the (possibly new) table. */
    method GetContract(contractType: ContractType, config: Config) returns (r: Result<Handle, RegistryError>)
      modifies this
      ensures contracts == EffectiveTable(old(contracts), config)
      ensures r == Resolve(contracts, contractType, config.blockchainType)
    {
      if config.contracts.Some? {
        contracts := config.contracts.value;
      }
      r := Resolve(contracts, contractType, config.blockchainType);
    }

    /** `isIdentityRegistered`: asks the Identity contract; no transaction. */
    method IsIdentityRegistered(davId: string, config: Config, node: Node) returns (r: Result<bool, RegistryError>)
      modifies this
      ensures contracts == EffectiveTable(old(contracts), config)
      ensures var h := Resolve(contracts, Identity, config.blockchainType);
        r == if h.Success? then Success(node.isRegistered(h.value.contractAddress, davId)) else Failure(h.error)
    {
      var handle := GetContract(Identity, config);
      if handle.Failure? {
        return Failure(handle.error);
      }
      r := Success(node.isRegistered(handle.value.contractAddress, davId));
    }

    /** `registerIdentity`: the `ALREADY_REGISTERED` sentinel when the identity is registered,
        and then no transaction at all; otherwise a `register` call from the wallet to the
        Identity contract, gas estimated from the wallet alone. */
    method RegisterIdentity(davId: string, walletAddress: string, signature: Signature, config: Config, node: Node)
      returns (r: Result<Outcome, RegistryError>)
      modifies this
      ensures contracts == EffectiveTable(old(contracts), config)
      ensures var h := Resolve(contracts, Identity, config.blockchainType);
        && (h.Failure? ==> r == Failure(h.error))
        && (h.Success? && node.isRegistered(h.value.contractAddress, davId) ==> r == Success(AlreadyRegistered))
        && (h.Success? && !node.isRegistered(h.value.contractAddress, davId) ==>
              var call := Register(davId, signature);
              var query := GasQuery(walletAddress, None);
              r == Success(ToSend(query, PlainTx(call, h.value.contractAddress, walletAddress,
                                                  node.estimateGas(call, query), node.gasPrice))))
    {
      var registered := IsIdentityRegistered(davId, config, node);
      if registered.Failure? {
        return Failure(registered.error);
      }
      if registered.value {
        return Success(AlreadyRegistered);
      }
      // in the model the second lookup repeats the first one (an override is idempotent), so it cannot fail
      var handle := GetContract(Identity, config);
      assert handle.Success?;
      var call := Register(davId, signature);
      var query := GasQuery(walletAddress, None);
      var estimatedGas := node.estimateGas(call, query);
      var gasPrice := node.gasPrice;
      var tx := PlainTx(call, handle.value.contractAddress, walletAddress, estimatedGas, gasPrice);
      r := Success(ToSend(query, tx));
    }

    /** `approveMission`: an `approve` of `TOKEN_AMOUNT` to the BasicMission contract, sent to
        the DAVToken contract from the identity. */
    method ApproveMission(davId: string, config: Config, node: Node) returns (r: Result<Outcome, RegistryError>)
      modifies this
      ensures contracts == EffectiveTable(old(contracts), config)
      ensures var token := Resolve(contracts, DAVToken, config.blockchainType);
        var mission := Resolve(contracts, BasicMission, config.blockchainType);
        && (token.Failure? ==> r == Failure(token.error))
        && (token.Success? && mission.Failure? ==> r == Failure(mission.error))
        && (token.Success? && mission.Success? ==>
              var call := Approve(mission.value.contractAddress, TokenAmount);
              var query := GasQuery(davId, Some(token.value.contractAddress));
              r == Success(ToSend(query, PlainTx(call, token.value.contractAddress, davId,
                                                  node.estimateGas(call, query), node.gasPrice))))
    {
      var token := GetContract(DAVToken, config);
      if token.Failure? {
        return Failure(token.error);
      }
      var mission := GetContract(BasicMission, config);
      if mission.Failure? {
        return Failure(mission.error);
      }
      var call := Approve(mission.value.contractAddress, TokenAmount);
      var query := GasQuery(davId, Some(token.value.contractAddress));
      var estimatedGas := node.estimateGas(call, query);
      var gasPrice := node.gasPrice;
      var tx := PlainTx(call, token.value.contractAddress, davId, estimatedGas, gasPrice);
      r := Success(ToSend(query, tx));
    }

    /** `startMission`: a `create` call sent from the wallet to the BasicMission contract; the
        only transaction that carries an explicit nonce (the wallet's transaction count). */
    method StartMission(missionId: string, davId: string, walletPublicKey: string, vehicleId: string,
                        config: Config, node: Node)
      returns (r: Result<Outcome, RegistryError>)
      modifies this
      ensures contracts == EffectiveTable(old(contracts), config)
      ensures var h := Resolve(contracts, BasicMission, config.blockchainType);
        && (h.Failure? ==> r == Failure(h.error))
        && (h.Success? ==>
              var call := Create(missionId, vehicleId, davId, TokenAmount);
              var query := GasQuery(walletPublicKey, Some(h.value.contractAddress));
              r == Success(ToSend(query, HexTx(node.transactionCount(walletPublicKey), call,
                                                h.value.contractAddress, walletPublicKey,
                                                node.estimateGas(call, query), node.gasPrice))))
    {
      var handle := GetContract(BasicMission, config);
      if handle.Failure? {
        return Failure(handle.error);
      }
      var nonce := node.transactionCount(walletPublicKey);
      var call := Create(missionId, vehicleId, davId, TokenAmount);
      var gasPrice := node.gasPrice;
      var query := GasQuery(walletPublicKey, Some(handle.value.contractAddress));
      var estimatedGas := node.estimateGas(call, query);
      var tx := HexTx(nonce, call, handle.value.contractAddress, walletPublicKey, estimatedGas, gasPrice);
      r := Success(ToSend(query, tx));
    }

    /** `finalizeMission`: a `fulfilled` call to the BasicMission contract whose gas is
        estimated from the wallet but whose transaction is from the identity. */
    method FinalizeMission(missionId: string, davId: string, walletPublicKey: string, config: Config, node: Node)
      returns (r: Result<Outcome, RegistryError>)
      modifies this
      ensures contracts == EffectiveTable(old(contracts), config)
      ensures var h := Resolve(contracts, BasicMission, config.blockchainType);
        && (h.Failure? ==> r == Failure(h.error))
        && (h.Success? ==>
              var call := Fulfilled(missionId);
              var query := GasQuery(walletPublicKey, Some(h.value.contractAddress));
              r == Success(ToSend(query, PlainTx(call, h.value.contractAddress, davId,
                                                  node.estimateGas(call, query), node.gasPrice))))
    {
      var handle := GetContract(BasicMission, config);
      if handle.Failure? {
        return Failure(handle.error);
      }
      var call := Fulfilled(missionId);
      var query := GasQuery(walletPublicKey, Some(handle.value.contractAddress));
      var estimatedGas := node.estimateGas(call, query);
      var gasPrice := node.gasPrice;
      var tx := PlainTx(call, handle.value.contractAddress, davId, estimatedGas, gasPrice);
      r := Success(ToSend(query, tx));
    }

    /** `watchContract`: resolves the contract (throwing as `getContract` does) and starts a
        watcher whose cursor is (0, 0). */
    method WatchContract(davId: string, contractType: ContractType, config: Config)
      returns (r: Result<EventWatcher.Watcher, RegistryError>)
      modifies this
      ensures contracts == EffectiveTable(old(contracts), config)
      ensures var h := Resolve(contracts, contractType, config.blockchainType);
        && (h.Failure? ==> r == Failure(h.error))
        && (h.Success? ==> r.Success? && fresh(r.value) && r.value.CurrentCursor() == EventWatcher.Cursor(0, 0))
    {
      var handle := GetContract(contractType, config);
      if handle.Failure? {
        return Failure(handle.error);
      }
      var watcher := new EventWatcher.Watcher();
      r := Success(watcher);
    }
  }
}
