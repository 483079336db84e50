/** Values shared by the wallet and the client abstraction: addresses, block
    references, cells, get-method tuples, account states, outgoing messages and
    the errors the core raises. Cells, tuples and hashes are kept abstract: a
    cell is the sequence of fields stored into it, in order. */
module Ton {

  datatype Option<+T> = None | Some(value: T)

  /** The moment at which a request reaches the network. Answers that depend on
      "the latest block" are functions of this moment. */
  type Time = nat

  /** A TON address: a workchain and an account id. */
  datatype Address = Address(workchain: int, hash: nat)

  /** A block id as returned by a masterchain-info or last-block request. */
  datatype BlockId = BlockId(seqno: nat, rootHash: nat, fileHash: nat)

  /** One field written into a cell by a builder call. */
  datatype CellField =
    | Uint(value: int, bits: nat)   // storeUint(value, bits)
    | Coins(amount: int)            // storeCoins(amount)
    | Addr(address: Address)        // storeAddress(address)
    | Bit(bit: bool)                // storeBit(bit)
    | Ref(child: seq<CellField>)    // storeRef(child)

  type Cell = seq<CellField>

  /** A get-method stack entry. */
  datatype TupleItem = Int(n: int) | Null | Slice(cell: Cell)

  /** What a tuple reader holds: the items still to read. */
  datatype TupleReader = TupleReader(items: seq<TupleItem>)

  /** The initial state the V5R1 wallet contract is created with. */
  datatype StateInit = WalletV5R1Init(workchain: int, publicKey: seq<bv8>, networkGlobalId: Option<int>)

  /** An internal message as built by `internal({...})`; a missing body is the empty cell. */
  datatype Message = Internal(to: Address, value: int, bounce: bool, body: Cell, init: Option<StateInit>)

  /** The normalised state of an account. */
  datatype ContractState = ContractState(active: bool, deployed: bool)

  /** A storage-state type tag: 'uninit', 'active' or 'frozen'. */
  datatype AccountStatus = Uninit | Active | Frozen

  /** The lite client's account-state answer: `state` is null for an account that
      does not exist, and the code reads `state?.storage?.state.type`. */
  datatype LiteAccountState = LiteAccountState(state: Option<LiteAccount>)
  datatype LiteAccount = LiteAccount(storage: Option<AccountStorage>)
  datatype AccountStorage = AccountStorage(status: AccountStatus)

  /** The value of `accountState.state?.storage?.state.type`: None stands for undefined. */
  function StorageType(acc: LiteAccountState): (r: Option<AccountStatus>)
    ensures r.Some? <==> acc.state.Some? && acc.state.value.storage.Some?
    ensures r.Some? ==> r.value == acc.state.value.storage.value.status
  {
    match acc.state
    case None => None
    case Some(a) =>
      match a.storage
      case None => None
      case Some(s) => Some(s.status)
  }

  predicate IsActive(acc: LiteAccountState) {
    StorageType(acc) == Some(Active)
  }

  /** The lite client's operations the core calls. `masterchainInfo` depends on the
      moment of the request; the account-state and get-method queries are asked at a
      given block, so their answers are functions of that block. `serializeTuple` and
      `parseTuple` stand for the tuple/BOC serialisation and the base64 decoding. */
  datatype LiteApi = LiteApi(
    masterchainInfo: Time -> BlockId,
    accountState: (Address, BlockId) -> LiteAccountState,
    runMethod: (Address, string, seq<bv8>, BlockId) -> Option<string>,
    serializeTuple: seq<TupleItem> -> seq<bv8>,
    parseTuple: string -> seq<TupleItem>)

  /** The errors the core raises. */
  datatype Error =
    | NotInitialized                       // 'Contract was not initialized'
    | JettonContractNotFound(name: string) // 'Jetton contract <name> not found'
    | JettonAssetNotFound(name: string)    // 'Jetton asset <name> not found'
    | NoWalletAddressResult                // 'get_wallet_address returned no result'
    | TupleReadError                       // a tuple reader found no address to read
    | TypeError                            // a property read on null

  datatype Result<+T> = Ok(value: T) | Err(error: Error)

  /** `TupleReader.readAddress`: the first item must be a slice that starts with an
      address; every other tuple this model can form is a read error. The reader also
      accepts cell and builder items, which `TupleItem` does not model. */
  function ReadAddress(items: seq<TupleItem>): (r: Result<Address>)
    ensures r.Ok? <==> |items| > 0 && items[0].Slice? && |items[0].cell| > 0 && items[0].cell[0].Addr?
    ensures r.Ok? ==> r.value == items[0].cell[0].address
    ensures r.Err? ==> r.error == TupleReadError
  {
    if |items| > 0 && items[0].Slice? && |items[0].cell| > 0 && items[0].cell[0].Addr?
    then Ok(items[0].cell[0].address)
    else Err(TupleReadError)
  }
}
