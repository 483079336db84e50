/** The backend normaliser: one of three client backends behind three operations,
    "is contract deployed", "get contract state" and "run get-method". The
    abstraction holds nothing but the backend, so every operation is a function
    of the backend, its arguments and the moment `t` at which it runs. Each
    operation returns the requests it sent to the backend together with its answer,
    which makes the block reference each request carries visible. */
module ClientAbstract {
  import opened Ton

  /** `TonClient.getContractState`: the answer object, null-able as the code tests it. */
  datatype V2ContractState = V2ContractState(state: AccountStatus)

  /** `TonClient4.getAccountLite(...).account`: `state` null-able as the code tests it. */
  datatype V4Account = V4Account(state: Option<AccountStatus>)

  /** The three backends. `TonClient` answers about the latest block on its own, so its
      answers depend on the moment of the request; `TonClient4` and the lite client answer
      about a block the caller names, so only their "latest block" requests depend on it. */
  datatype Backend =
    | TonClient(
        contractState: (Time, Address) -> Option<V2ContractState>,
        isDeployed: (Time, Address) -> bool,
        runMethod: (Time, Address, string, seq<TupleItem>) -> seq<TupleItem>)
    | TonClient4(
        lastBlock: Time -> BlockId,
        isDeployedAt: (nat, Address) -> bool,
        accountLite: (nat, Address) -> V4Account,
        runMethodAt: (nat, Address, string, seq<TupleItem>) -> seq<TupleItem>)
    | LiteClient(api: LiteApi)

  /** A request sent to a backend, with the block reference it carries. */
  datatype Request =
    | GetContractStateV2(address: Address)
    | IsContractDeployedV2(address: Address)
    | RunMethodV2(address: Address, name: string, args: seq<TupleItem>)
    | GetLastBlock
    | IsContractDeployedAt(seqno: nat, address: Address)
    | GetAccountLite(seqno: nat, address: Address)
    | RunMethodAt(seqno: nat, address: Address, name: string, args: seq<TupleItem>)
    | GetMasterchainInfo
    | GetAccountState(address: Address, block: BlockId)
    | RunMethodLite(address: Address, name: string, params: seq<bv8>, block: BlockId)

  /** The requests one operation sent and what it returned. */
  datatype Call<T> = Call(requests: seq<Request>, result: T)

  /** The reference discipline of one call made at moment `t`: `TonClient` sends a single
      request with no block reference; `TonClient4` first asks for the last block and passes
      that block's seqno; the lite client first asks for the masterchain info and passes its
      `last` block. The reference always comes from the call's own first request, never
      from an earlier call. */
  ghost predicate FreshReference(b: Backend, t: Time, requests: seq<Request>) {
    match b
    case TonClient(_, _, _) =>
      |requests| == 1
      && (requests[0].GetContractStateV2? || requests[0].IsContractDeployedV2? || requests[0].RunMethodV2?)
    case TonClient4(lastBlock, _, _, _) =>
      |requests| == 2 && requests[0] == GetLastBlock
      && (requests[1].IsContractDeployedAt? || requests[1].GetAccountLite? || requests[1].RunMethodAt?)
      && requests[1].seqno == lastBlock(t).seqno
    case LiteClient(api) =>
      |requests| == 2 && requests[0] == GetMasterchainInfo
      && (requests[1].GetAccountState? || requests[1].RunMethodLite?)
      && requests[1].block == api.masterchainInfo(t)
  }

  /** The lite branch's mapping of an account-state answer: deployed when the account
      exists, active when its storage type is 'active'. Optional chaining means a missing
      account or storage reads as "not active" and never fails. */
  function LiteContractState(acc: LiteAccountState): (s: ContractState)
    ensures s.deployed <==> acc.state.Some?
    ensures s.active <==> IsActive(acc)
    ensures s.active ==> s.deployed
  {
    ContractState(IsActive(acc), acc.state.Some?)
  }

  function GetContractState(b: Backend, address: Address, t: Time): (c: Call<Result<ContractState>>)
    ensures FreshReference(b, t, c.requests)
    ensures c.requests[|c.requests| - 1].address == address
    ensures c.result.Ok? ==> (c.result.value.active ==> c.result.value.deployed)
    ensures b.LiteClient? ==> c.result == Ok(LiteContractState(b.api.accountState(address, c.requests[1].block)))
    ensures b.TonClient? ==> (c.result.Ok? <==> b.contractState(t, address).Some?)
    ensures b.TonClient? && c.result.Ok? ==> c.result.value.active == (b.contractState(t, address).value.state == Active)
    ensures b.TonClient4? ==> (c.result.Ok? <==> b.accountLite(c.requests[1].seqno, address).state.Some?)
    ensures b.TonClient4? && c.result.Ok? ==>
              c.result.value.active == (b.accountLite(c.requests[1].seqno, address).state.value == Active)
    ensures !b.LiteClient? ==> (c.result.Ok? ==> c.result.value.deployed)
    ensures c.result.Err? ==> c.result.error == TypeError
  {
    match b
    case TonClient(contractState, _, _) =>
      var state := contractState(t, address);
      // `deployed: state !== null`, then `active: state.state === 'active'` reads `state`
      var result := if state.None? then Err(TypeError) else Ok(ContractState(state.value.state == Active, true));
      Call([GetContractStateV2(address)], result)
    case TonClient4(lastBlock, _, accountLite, _) =>
      var last := lastBlock(t);
      var account := accountLite(last.seqno, address);
      // `deployed: account.state !== null`, then `active: account.state.type === 'active'`
      var result := if account.state.None? then Err(TypeError) else Ok(ContractState(account.state.value == Active, true));
      Call([GetLastBlock, GetAccountLite(last.seqno, address)], result)
    case LiteClient(api) =>
      var master := api.masterchainInfo(t);
      var accountState := api.accountState(address, master);
      Call([GetMasterchainInfo, GetAccountState(address, master)], Ok(LiteContractState(accountState)))
  }

  /** On the lite client the deployment test is the 'active' test, so it agrees with the
      `active` flag of `GetContractState` and not with its `deployed` flag. */
  function IsContractDeployed(b: Backend, address: Address, t: Time): (c: Call<bool>)
    ensures FreshReference(b, t, c.requests)
    ensures c.requests[|c.requests| - 1].address == address
    ensures b.TonClient? ==> c.result == b.isDeployed(t, address)
    ensures b.TonClient4? ==> c.result == b.isDeployedAt(c.requests[1].seqno, address)
    ensures b.LiteClient? ==> c.result == GetContractState(b, address, t).result.value.active
    ensures b.LiteClient? ==> c.requests == GetContractState(b, address, t).requests
  {
    match b
    case TonClient(_, isDeployed, _) =>
      Call([IsContractDeployedV2(address)], isDeployed(t, address))
    case TonClient4(lastBlock, isDeployedAt, _, _) =>
      var last := lastBlock(t);
      Call([GetLastBlock, IsContractDeployedAt(last.seqno, address)], isDeployedAt(last.seqno, address))
    case LiteClient(api) =>
      var master := api.masterchainInfo(t);
      var accountState := api.accountState(address, master);
      Call([GetMasterchainInfo, GetAccountState(address, master)], IsActive(accountState))
  }

  /** Runs a get-method. The lite client takes the arguments serialised and answers with an
      optional base64 string: an absent or empty answer becomes the empty reader. */
  function RunGetMethod(b: Backend, address: Address, name: string, args: seq<TupleItem>, t: Time): (c: Call<TupleReader>)
    ensures FreshReference(b, t, c.requests)
    ensures var query := c.requests[|c.requests| - 1];
            (query.RunMethodV2? || query.RunMethodAt? || query.RunMethodLite?) && query.address == address && query.name == name
    ensures b.TonClient? ==> c.requests[0].args == args && c.result.items == b.runMethod(t, address, name, args)
    ensures b.TonClient4? ==> c.requests[1].args == args && c.result.items == b.runMethodAt(c.requests[1].seqno, address, name, args)
    ensures b.LiteClient? ==> c.requests[1].params == b.api.serializeTuple(args)
    ensures b.LiteClient? ==>
              var answer := b.api.runMethod(address, name, b.api.serializeTuple(args), c.requests[1].block);
              && (answer.None? || answer.value == "" ==> c.result.items == [])
              && (answer.Some? && answer.value != "" ==> c.result.items == b.api.parseTuple(answer.value))
  {
    match b
    case TonClient(_, _, runMethod) =>
      Call([RunMethodV2(address, name, args)], TupleReader(runMethod(t, address, name, args)))
    case TonClient4(lastBlock, _, _, runMethodAt) =>
      var last := lastBlock(t);
      Call([GetLastBlock, RunMethodAt(last.seqno, address, name, args)], TupleReader(runMethodAt(last.seqno, address, name, args)))
    case LiteClient(api) =>
      var last := api.masterchainInfo(t);
      var params := api.serializeTuple(args);
      var answer := api.runMethod(address, name, params, last);
      var reader := if answer.None? || answer.value == "" then TupleReader([]) else TupleReader(api.parseTuple(answer.value));
      Call([GetMasterchainInfo, RunMethodLite(address, name, params, last)], reader)
  }

  /** `runGetMethod` with its optional argument list: an omitted list is the empty list. */
  function RunGetMethodDefault(b: Backend, address: Address, name: string, args: Option<seq<TupleItem>>, t: Time): (c: Call<TupleReader>)
    ensures args.None? ==> c == RunGetMethod(b, address, name, [], t)
    ensures args.Some? ==> c == RunGetMethod(b, address, name, args.value, t)
  {
    RunGetMethod(b, address, name, if args.Some? then args.value else [], t)
  }

  /** On a height-based backend two calls at different moments can only differ through
      the block each one fetched: when the latest block did not move, all three
      operations send the same requests and answer the same. */
  lemma SameHeadSameAnswer(b: Backend, address: Address, name: string, args: seq<TupleItem>, t1: Time, t2: Time)
    requires b.TonClient4? || b.LiteClient?
    requires b.TonClient4? ==> b.lastBlock(t1).seqno == b.lastBlock(t2).seqno
    requires b.LiteClient? ==> b.api.masterchainInfo(t1) == b.api.masterchainInfo(t2)
    ensures GetContractState(b, address, t1) == GetContractState(b, address, t2)
    ensures IsContractDeployed(b, address, t1) == IsContractDeployed(b, address, t2)
    ensures RunGetMethod(b, address, name, args, t1) == RunGetMethod(b, address, name, args, t2)
  {
  }
}
