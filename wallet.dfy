/** The wallet: a V5R1 wallet contract derived from a mnemonic, four name-keyed
    registries for the jettons it holds, and the transfers it builds, submits and
    waits for. The wallet talks to a lite client directly.

    Network answers that depend on when they are asked are functions of the moment
    of the request (`Time`); callers pass those moments, and a polling loop takes the
    finite sequence of moments at which it polls. When that sequence runs out before
    the awaited change is seen, the operation reports `Waiting`: the source would
    still be polling. Transfers handed to `sendTransfer` are returned to the caller
    as `sent`, so the operations that only talk to the network change nothing here. */
module Wallet {
  import opened Ton
  import Tep74
  import Units
  import ClientAbstract

  /** Native currency attached to every jetton transfer and to the deploy message. */
  const TRANSFER_FEE: int := 100000000

  /** `SendMode.PAY_GAS_SEPARATELY`. */
  const PAY_GAS_SEPARATELY: int := 1

  /** The name of the native asset. */
  const TON: string := "TON"

  datatype KeyPair = KeyPair(publicKey: seq<bv8>, secretKey: seq<bv8>)

  /** An opened wallet contract: its address and the initial state it is created with. */
  datatype WalletContract = WalletContract(address: Address, init: StateInit)

  datatype JettonConfig = JettonConfig(name: string, masterAddress: Address, decimals: int)

  /** The arguments of one `sendTransfer` call. */
  datatype TransferArgs = TransferArgs(seqno: int, secretKey: seq<bv8>, sendMode: int, messages: seq<Message>)

  /** Collaborators the model does not open: key derivation from the mnemonic, the hash
      that gives a contract its address, the cell hash, and the contract getters for
      the sequence number and the balances (answers at a given moment). */
  datatype Env = Env(
    mnemonicToKeys: string -> KeyPair,
    stateInitHash: StateInit -> nat,
    cellHash: Cell -> seq<bv8>,
    seqnoAt: (Address, Time) -> int,
    tonBalanceAt: (Address, Time) -> int,
    jettonBalanceAt: (Address, Time) -> int)

  /** The end of an operation that polls: its value, an error, or still polling when
      the given poll moments ran out. */
  datatype Outcome<+T> = Done(value: T) | Failed(error: Error) | Waiting

  /** The TEP-74 transfer a jetton transfer of `amount` to `to` carries: query id 0,
      `to` as both destination and response destination, no custom payload, a forward
      amount of 1 so that the receiver is notified, and an empty inline forward payload. */
  function JettonTransferOf(amount: int, to: Address): Tep74.JettonTransfer {
    Tep74.JettonTransfer(0, amount, to, to, None, 1, Tep74.Inline([]))
  }

  /** The body `createJettonTransferMessage` stores, field by field. */
  function JettonTransferBody(amount: int, to: Address): (body: Cell)
    ensures Tep74.Decode(body) == Some(JettonTransferOf(amount, to))
    ensures body == Tep74.Encode(JettonTransferOf(amount, to))
  {
    [Uint(0x0f8a7ea5, 32), Uint(0, 64), Coins(amount), Addr(to), Addr(to), Bit(false), Coins(1), Bit(false)]
  }

  /** The native transfer message: non-bounceable, carrying the amount, no body. */
  function TonTransferMessage(to: Address, amount: int): (m: Message)
    ensures m.to == to && m.value == amount && !m.bounce
    ensures m.body == [] && m.init.None?
  {
    Internal(to, amount, false, [], None)
  }

  /** Every poll moment comes after the moment `t` of submission. */
  predicate PollsAfter(t: Time, polls: seq<Time>) {
    forall j :: 0 <= j < |polls| ==> t < polls[j]
  }

  /** Every moment of `first` comes before every moment of `second`. */
  predicate PollsBefore(first: seq<Time>, second: seq<Time>) {
    forall i, j :: 0 <= i < |first| && 0 <= j < |second| ==> first[i] < second[j]
  }

  class Wallet {
    const client: LiteApi
    const env: Env
    const mnemonic: string
    const name: string

    var keys: Option<KeyPair>
    var tonContract: Option<WalletContract>
    var tonContractState: ContractState
    var jettonContracts: map<string, Address>
    var jettonContractStates: map<string, ContractState>
    var jettonMasters: map<string, Address>
    var jettonDecimals: map<string, int>

    /** Keys and contract are set together; the cached state is {active: false,
        deployed: false} until `Init`; a registered jetton has a master, a contract, a
        state and decimals, except a name whose last derivation failed, which may have
        only a master. */
    ghost predicate Valid()
      reads this
    {
      && (keys.Some? <==> tonContract.Some?)
      && (tonContractState.active ==> tonContractState.deployed)
      && (tonContractState.deployed ==> tonContract.Some?)
      && jettonContractStates.Keys == jettonContracts.Keys
      && jettonDecimals.Keys == jettonContracts.Keys
      && jettonContracts.Keys <= jettonMasters.Keys
      && forall n :: n in jettonContractStates ==> (jettonContractStates[n].active ==> jettonContractStates[n].deployed)
    }

    constructor (client: LiteApi, env: Env, mnemonic: string, name: string)
      ensures Valid()
      ensures this.client == client && this.env == env && this.mnemonic == mnemonic && this.name == name
      ensures keys == None && tonContract == None && tonContractState == ContractState(false, false)
      ensures jettonContracts == map[] && jettonContractStates == map[] && jettonMasters == map[] && jettonDecimals == map[]
    {
      this.client := client;
      this.env := env;
      this.mnemonic := mnemonic;
      this.name := name;
      keys := None;
      tonContract := None;
      tonContractState := ContractState(false, false);
      jettonContracts := map[];
      jettonContractStates := map[];
      jettonMasters := map[];
      jettonDecimals := map[];
    }

    /** `WalletContractV5R1.create` on workchain 0 with the public key and network id. */
    function OwnContract(k: KeyPair, networkGlobalId: Option<int>): (c: WalletContract)
      ensures c.init == WalletV5R1Init(0, k.publicKey, networkGlobalId)
      ensures c.address.workchain == 0
      ensures c.address.hash == env.stateInitHash(c.init)
    {
      var init := WalletV5R1Init(0, k.publicKey, networkGlobalId);
      WalletContract(Address(init.workchain, env.stateInitHash(init)), init)
    }

    /** The account state at the masterchain block the client reports at moment `t`:
        the same mapping as the lite branch of the client abstraction. */
    function CheckContractState(address: Address, t: Time): (s: ContractState)
      ensures s == ClientAbstract.GetContractState(ClientAbstract.LiteClient(client), address, t).result.value
      ensures s.active ==> s.deployed
    {
      ClientAbstract.LiteContractState(client.accountState(address, client.masterchainInfo(t)))
    }

    method Init(networkGlobalId: Option<int>, t: Time)
      requires Valid()
      modifies this
      ensures Valid()
      ensures keys == Some(env.mnemonicToKeys(mnemonic))
      ensures tonContract == Some(OwnContract(keys.value, networkGlobalId))
      ensures tonContractState == CheckContractState(tonContract.value.address, t)
      ensures jettonContracts == old(jettonContracts) && jettonContractStates == old(jettonContractStates)
      ensures jettonMasters == old(jettonMasters) && jettonDecimals == old(jettonDecimals)
    {
      var k := env.mnemonicToKeys(mnemonic);
      keys := Some(k);
      var contract := OwnContract(k, networkGlobalId);
      tonContract := Some(contract);
      tonContractState := CheckContractState(contract.address, t);
    }

    /** The sequence number `_tonContract.getSeqno()` reads at moment `t`. */
    function SeqnoAt(t: Time): int
      requires tonContract.Some?
      reads this
    {
      env.seqnoAt(tonContract.value.address, t)
    }

    function GetSeqno(t: Time): (r: Result<int>)
      reads this
      ensures r.Err? <==> tonContract.None?
      ensures r.Err? ==> r.error == NotInitialized
      ensures r.Ok? ==> r.value == SeqnoAt(t)
    {
      if tonContract.None? then Err(NotInitialized) else Ok(SeqnoAt(t))
    }

    function GetTonAddress(): (r: Result<Address>)
      reads this
      ensures r.Err? <==> tonContract.None?
      ensures r.Err? ==> r.error == NotInitialized
      ensures r.Ok? ==> r.value == tonContract.value.address
    {
      if tonContract.None? then Err(NotInitialized) else Ok(tonContract.value.address)
    }

    /** Asks the jetton master's `get_wallet_address` at the block the client reports at
        moment `t`, passing the owner's address as a slice; no answer is an error. */
    function ParseJettonAddress(user: Address, master: Address, t: Time): (r: Result<Address>)
      ensures var answer := client.runMethod(master, "get_wallet_address",
                                             client.serializeTuple([Slice([Addr(user)])]), client.masterchainInfo(t));
              && (answer.None? || answer.value == "" <==> r == Err(NoWalletAddressResult))
              && (answer.Some? && answer.value != "" ==> r == ReadAddress(client.parseTuple(answer.value)))
      // The same get-method call through the client abstraction: on an answer both read the
      // same tuple; on no answer the wallet fails with "no result" where the abstraction
      // returns the empty reader, from which reading an address is a read error.
      ensures var call := ClientAbstract.RunGetMethod(ClientAbstract.LiteClient(client), master, "get_wallet_address",
                                                      [Slice([Addr(user)])], t);
              var answer := client.runMethod(master, "get_wallet_address",
                                             client.serializeTuple([Slice([Addr(user)])]), client.masterchainInfo(t));
              && (answer.Some? && answer.value != "" ==> r == ReadAddress(call.result.items))
              && (answer.None? || answer.value == "" ==>
                    r == Err(NoWalletAddressResult) && call.result.items == [] && ReadAddress(call.result.items) == Err(TupleReadError))
    {
      var last := client.masterchainInfo(t);
      var params := [Slice([Addr(user)])];
      var response := client.runMethod(master, "get_wallet_address", client.serializeTuple(params), last);
      if response.None? || response.value == "" then Err(NoWalletAddressResult)
      else ReadAddress(client.parseTuple(response.value))
    }

    /** `parseJettonAddress(this._tonContract.address, master)`: the wallet's own
        sub-account for a jetton master. */
    function JettonWalletAddress(master: Address, t: Time): (r: Result<Address>)
      reads this
      ensures tonContract.None? ==> r == Err(NotInitialized)
      ensures tonContract.Some? ==> r == ParseJettonAddress(tonContract.value.address, master, t)
    {
      if tonContract.None? then Err(NotInitialized) else ParseJettonAddress(tonContract.value.address, master, t)
    }

    /** Registers a jetton under `config.name`, overwriting an earlier entry of that name.
        The master is stored before the sub-account is derived, so a failed derivation
        leaves the new master next to whatever else the name held. */
    method AddJetton(config: JettonConfig, tDerive: Time, tState: Time) returns (r: Result<()>)
      requires Valid() && tDerive <= tState
      modifies this
      ensures Valid()
      ensures keys == old(keys) && tonContract == old(tonContract) && tonContractState == old(tonContractState)
      ensures jettonMasters == old(jettonMasters)[config.name := config.masterAddress]
      ensures var derived := JettonWalletAddress(config.masterAddress, tDerive);
              && (derived.Err? ==> r == Err(derived.error))
              && (derived.Err? ==> jettonContracts == old(jettonContracts)
                                     && jettonContractStates == old(jettonContractStates)
                                     && jettonDecimals == old(jettonDecimals))
              && (derived.Ok? ==> r == Ok(())
                                  && jettonContracts == old(jettonContracts)[config.name := derived.value]
                                  && jettonContractStates == old(jettonContractStates)[config.name := CheckContractState(derived.value, tState)]
                                  && jettonDecimals == old(jettonDecimals)[config.name := config.decimals])
    {
      jettonMasters := jettonMasters[config.name := config.masterAddress];
      var derived := JettonWalletAddress(config.masterAddress, tDerive);
      if derived.Err? {
        return Err(derived.error);
      }
      jettonContracts := jettonContracts[config.name := derived.value];
      jettonContractStates := jettonContractStates[config.name := CheckContractState(derived.value, tState)];
      jettonDecimals := jettonDecimals[config.name := config.decimals];
      r := Ok(());
    }

    function GetJettonContract(n: string): (r: Result<Address>)
      reads this
      ensures r.Ok? <==> n in jettonContracts
      ensures r.Ok? ==> r.value == jettonContracts[n]
      ensures r.Err? ==> r.error == JettonContractNotFound(n)
    {
      if n in jettonContracts then Ok(jettonContracts[n]) else Err(JettonContractNotFound(n))
    }

    function GetJettonMaster(n: string): (r: Result<Address>)
      reads this
      ensures r.Ok? <==> n in jettonMasters
      ensures r.Ok? ==> r.value == jettonMasters[n]
      ensures r.Err? ==> r.error == JettonContractNotFound(n)
    {
      if n in jettonMasters then Ok(jettonMasters[n]) else Err(JettonContractNotFound(n))
    }

    /** The decimals `toAsset` and `fromAsset` scale by: 9 for the native asset; for any
        other name the registered decimals, where a missing entry and an entry of 0 both
        count as "not found" (the code tests the entry for truthiness). */
    function Decimals(n: string): (r: Result<int>)
      reads this
      ensures n == TON ==> r == Ok(Units.TON_DECIMALS)
      ensures n != TON ==> (r.Ok? <==> n in jettonDecimals && jettonDecimals[n] != 0)
      ensures n != TON && r.Ok? ==> r.value == jettonDecimals[n]
      ensures r.Err? ==> r.error == JettonAssetNotFound(n)
    {
      if n == TON then Ok(Units.TON_DECIMALS)
      else if n !in jettonDecimals || jettonDecimals[n] == 0 then Err(JettonAssetNotFound(n))
      else Ok(jettonDecimals[n])
    }

    function ToAsset(n: string, amount: real): (r: Result<int>)
      reads this
      ensures r.Ok? <==> Decimals(n).Ok?
      ensures r.Ok? ==> r.value == Units.ToBaseUnits(amount, Decimals(n).value)
      ensures r.Err? ==> r.error == JettonAssetNotFound(n)
    {
      match Decimals(n)
      case Err(e) => Err(e)
      case Ok(d) => Ok(Units.ToBaseUnits(amount, d))
    }

    function FromAsset(n: string, amount: int): (r: Result<real>)
      reads this
      ensures r.Ok? <==> Decimals(n).Ok?
      ensures r.Ok? ==> r.value == Units.FromBaseUnits(amount, Decimals(n).value)
      ensures r.Err? ==> r.error == JettonAssetNotFound(n)
    {
      match Decimals(n)
      case Err(e) => Err(e)
      case Ok(d) => Ok(Units.FromBaseUnits(amount, d))
    }

    /** A decimal amount converted to base units and back is within half a base unit. */
    lemma AssetRoundTrip(n: string, amount: real)
      requires ToAsset(n, amount).Ok?
      ensures FromAsset(n, ToAsset(n, amount).value).Ok?
      ensures var d := Decimals(n).value;
              var back := FromAsset(n, ToAsset(n, amount).value).value;
              -0.5 / Units.Pow10(d) < back - amount <= 0.5 / Units.Pow10(d)
    {
      Units.ToFromWithinHalfUnit(amount, Decimals(n).value);
    }

    /** Base units converted to a decimal amount and back are unchanged (over exact reals). */
    lemma BaseUnitsRoundTrip(n: string, units: int)
      requires Decimals(n).Ok?
      ensures ToAsset(n, FromAsset(n, units).value) == Ok(units)
    {
      Units.FromToExact(units, Decimals(n).value);
    }

    /** The cached native state decides: not deployed (in particular before `Init`)
        reads as 0 without touching the contract. */
    function GetTonBalance(t: Time): (r: Result<int>)
      reads this
      ensures !tonContractState.deployed ==> r == Ok(0)
      ensures tonContractState.deployed && tonContract.Some? ==> r == Ok(env.tonBalanceAt(tonContract.value.address, t))
      ensures r.Err? ==> r.error == NotInitialized
      ensures Valid() ==> r.Ok?
    {
      if !tonContractState.deployed then Ok(0)
      else if tonContract.None? then Err(NotInitialized)
      else Ok(env.tonBalanceAt(tonContract.value.address, t))
    }

    /** A name with no cached state, or a cached state that is not deployed, reads as 0:
        an unregistered name does not fail here. */
    function GetJettonBalance(n: string, t: Time): (r: Result<int>)
      reads this
      ensures n !in jettonContractStates || !jettonContractStates[n].deployed ==> r == Ok(0)
      ensures n in jettonContractStates && jettonContractStates[n].deployed ==>
                r == (if n in jettonContracts then Ok(env.jettonBalanceAt(jettonContracts[n], t))
                      else Err(JettonContractNotFound(n)))
      ensures Valid() ==> r.Ok?
    {
      if n !in jettonContractStates || !jettonContractStates[n].deployed then Ok(0)
      else
        match GetJettonContract(n)
        case Err(e) => Err(e)
        case Ok(contract) => Ok(env.jettonBalanceAt(contract, t))
    }

    function GetBalance(n: string, t: Time): (r: Result<real>)
      reads this
      ensures n == TON ==> r == (if GetTonBalance(t).Err? then Err(GetTonBalance(t).error)
                                 else FromAsset(TON, GetTonBalance(t).value))
      ensures n != TON ==> r == (if GetJettonBalance(n, t).Err? then Err(GetJettonBalance(n, t).error)
                                 else FromAsset(n, GetJettonBalance(n, t).value))
      ensures Valid() ==> (r.Ok? <==> Decimals(n).Ok?)
    {
      if n == TON then
        match GetTonBalance(t)
        case Err(e) => Err(e)
        case Ok(b) => FromAsset(TON, b)
      else
        match GetJettonBalance(n, t)
        case Err(e) => Err(e)
        case Ok(b) => FromAsset(n, b)
    }

    /** The entry `getAllBalances` computes for a jetton name: its jetton balance scaled
        by the decimals of that name. */
    function JettonEntry(n: string, t: Time): (r: Result<real>)
      reads this
      ensures n != TON ==> r == GetBalance(n, t)
    {
      match GetJettonBalance(n, t)
      case Err(e) => Err(e)
      case Ok(b) => FromAsset(n, b)
    }

    /** All balances: the native one under "TON" and one entry per registered jetton
        contract; an entry for a jetton named "TON" replaces the native one. */
    method GetAllBalances(t: Time) returns (r: Result<map<string, real>>)
      ensures r.Ok? <==> GetBalance(TON, t).Ok? && forall n :: n in jettonContracts ==> JettonEntry(n, t).Ok?
      ensures r.Ok? ==> r.value.Keys == {TON} + jettonContracts.Keys
      ensures r.Ok? ==> forall n :: n in jettonContracts ==> r.value[n] == JettonEntry(n, t).value
      ensures r.Ok? && TON !in jettonContracts ==> r.value[TON] == GetBalance(TON, t).value
      ensures r.Err? ==> GetBalance(TON, t) == Err(r.error)
                         || exists n :: n in jettonContracts && JettonEntry(n, t) == Err(r.error)
    {
      var ton := GetBalance(TON, t);
      if ton.Err? {
        return Err(ton.error);
      }
      var entries: map<string, real> := map[];
      var remaining := jettonContracts.Keys;
      while remaining != {}
        invariant remaining <= jettonContracts.Keys
        invariant entries.Keys == jettonContracts.Keys - remaining
        invariant forall n :: n in entries ==> JettonEntry(n, t).Ok? && entries[n] == JettonEntry(n, t).value
        decreases remaining
      {
        var n :| n in remaining;
        var e := JettonEntry(n, t);
        if e.Err? {
          return Err(e.error);
        }
        entries := entries[n := e.value];
        remaining := remaining - {n};
      }
      r := Ok(map[TON := ton.value] + entries);
    }

    /** The jetton transfer message: sent bounceable to the wallet's own sub-account for
        `master`, with `TRANSFER_FEE` attached and the TEP-74 transfer as body. */
    function CreateJettonTransferMessage(master: Address, to: Address, amount: int, t: Time): (r: Result<Message>)
      reads this
      ensures JettonWalletAddress(master, t).Err? ==> r == Err(JettonWalletAddress(master, t).error)
      ensures r.Ok? ==> tonContract.Some? && JettonWalletAddress(master, t) == Ok(r.value.to)
      ensures r.Ok? ==> r.value.value == TRANSFER_FEE && r.value.bounce && r.value.init.None?
      ensures r.Ok? ==> Tep74.Decode(r.value.body) == Some(JettonTransferOf(amount, to))
      ensures JettonWalletAddress(master, t).Ok? ==> r.Ok?
    {
      match JettonWalletAddress(master, t)
      case Err(e) => Err(e)
      case Ok(fromJetton) => Ok(Internal(fromJetton, TRANSFER_FEE, true, JettonTransferBody(amount, to), None))
    }

    /** The message for a transfer of `amount` base units of asset `n` to `to`. */
    function CreateTransferMessageRaw(n: string, to: Address, amount: int, t: Time): (r: Result<Message>)
      reads this
      ensures n == TON ==> r == Ok(TonTransferMessage(to, amount))
      ensures n != TON && n !in jettonMasters ==> r == Err(JettonContractNotFound(n))
      ensures n != TON && n in jettonMasters ==> r == CreateJettonTransferMessage(jettonMasters[n], to, amount, t)
    {
      if n == TON then Ok(TonTransferMessage(to, amount))
      else
        match GetJettonMaster(n)
        case Err(e) => Err(e)
        case Ok(master) => CreateJettonTransferMessage(master, to, amount, t)
    }

    /** The message for a transfer of a decimal `amount` of asset `n`. */
    function CreateTransferMessage(n: string, to: Address, amount: real, t: Time): (r: Result<Message>)
      reads this
      ensures ToAsset(n, amount).Err? ==> r == Err(JettonAssetNotFound(n))
      ensures ToAsset(n, amount).Ok? ==> r == CreateTransferMessageRaw(n, to, ToAsset(n, amount).value, t)
    {
      match ToAsset(n, amount)
      case Err(e) => Err(e)
      case Ok(units) => CreateTransferMessageRaw(n, to, units, t)
    }

    /** Some poll after submission saw a sequence number other than `seqno`. */
    ghost predicate Confirmed(seqno: int, polls: seq<Time>)
      requires tonContract.Some?
      reads this
    {
      exists j :: 0 <= j < |polls| && SeqnoAt(polls[j]) != seqno
    }

    /** Polls the sequence number at the moments `polls` until it differs from `seqno`
        and returns the first different value; `used` is the number of polls made. The
        loop polls before it tests, so the unchanged value is never returned. */
    method WaitSeqno(seqno: int, polls: seq<Time>) returns (r: Outcome<int>, used: nat)
      ensures used <= |polls|
      ensures tonContract.None? <==> r.Failed?
      ensures r.Failed? ==> r.error == NotInitialized && used == 0
      ensures r.Done? ==> tonContract.Some? && 1 <= used && r.value == SeqnoAt(polls[used - 1])
      ensures r.Done? ==> r.value != seqno
      ensures r.Done? ==> forall j :: 0 <= j < used - 1 ==> SeqnoAt(polls[j]) == seqno
      ensures r.Waiting? ==> tonContract.Some? && used == |polls|
      ensures r.Waiting? ==> forall j :: 0 <= j < |polls| ==> SeqnoAt(polls[j]) == seqno
    {
      var current := seqno;
      used := 0;
      while current == seqno
        invariant used <= |polls|
        invariant used == 0 ==> current == seqno
        invariant used > 0 ==> tonContract.Some?
        invariant used > 0 ==> current == SeqnoAt(polls[used - 1])
        invariant used > 0 ==> forall j :: 0 <= j < used - 1 ==> SeqnoAt(polls[j]) == seqno
        decreases |polls| - used
      {
        // the delay of `checkInterval` between polls is the gap between poll moments
        if tonContract.None? {
          return Failed(NotInitialized), used;
        }
        if used == |polls| {
          return Waiting, used;
        }
        current := SeqnoAt(polls[used]);
        used := used + 1;
      }
      r := Done(current);
    }

    /** Polls the account state of `address` at the moments `polls` until its storage type
        is 'active'. It goes through the client, not the contract, so it never fails. */
    method WaitContractDeploy(address: Address, polls: seq<Time>) returns (r: Outcome<()>, used: nat)
      ensures used <= |polls|
      ensures !r.Failed?
      ensures r.Done? ==> 1 <= used && CheckContractState(address, polls[used - 1]).active
      ensures r.Done? ==> forall j :: 0 <= j < used - 1 ==> !CheckContractState(address, polls[j]).active
      ensures r.Waiting? ==> used == |polls| && forall j :: 0 <= j < |polls| ==> !CheckContractState(address, polls[j]).active
    {
      var state: Option<AccountStatus> := None;
      used := 0;
      while state != Some(Active)
        invariant used <= |polls|
        invariant used == 0 ==> state == None
        invariant used > 0 ==> state == StorageType(client.accountState(address, client.masterchainInfo(polls[used - 1])))
        invariant forall j :: 0 <= j < used - 1 ==> !CheckContractState(address, polls[j]).active
        decreases |polls| - used
      {
        if used == |polls| {
          return Waiting, used;
        }
        var master := client.masterchainInfo(polls[used]);
        var accountState := client.accountState(address, master);
        state := StorageType(accountState);
        used := used + 1;
      }
      r := Done(());
    }

    /** What one submission of `messages` leads to: nothing is sent and the call fails
        before `Init`; afterwards one transfer is sent against the sequence number read at
        moment `t`, and the call is done exactly when a later poll sees a new number. */
    ghost predicate SubmitOutcome(messages: seq<Message>, t: Time, polls: seq<Time>, r: Outcome<()>, sent: seq<TransferArgs>)
      reads this
    {
      && (tonContract.None? || keys.None? ==> r == Failed(NotInitialized) && sent == [])
      && (tonContract.Some? && keys.Some? ==>
            && sent == [TransferArgs(SeqnoAt(t), keys.value.secretKey, PAY_GAS_SEPARATELY, messages)]
            && !r.Failed?
            && (r.Done? <==> Confirmed(SeqnoAt(t), polls)))
    }

    method Send(messages: seq<Message>, t: Time, polls: seq<Time>) returns (r: Outcome<()>, sent: seq<TransferArgs>)
      requires PollsAfter(t, polls)
      ensures SubmitOutcome(messages, t, polls, r, sent)
    {
      if tonContract.None? {
        return Failed(NotInitialized), [];
      }
      var seqno := SeqnoAt(t);
      if keys.None? {
        return Failed(NotInitialized), [];
      }
      sent := [TransferArgs(seqno, keys.value.secretKey, PAY_GAS_SEPARATELY, messages)];
      var w, used := WaitSeqno(seqno, polls);
      if w.Done? {
        assert SeqnoAt(polls[used - 1]) != seqno;
        r := Done(());
      } else {
        r := Waiting;
      }
    }

    /** What a transfer of a nonzero amount that submits `message` leads to, with the
        body hash of the message as the result once confirmed. */
    ghost predicate TransferOutcome(message: Message, t: Time, polls: seq<Time>, r: Outcome<seq<bv8>>, sent: seq<TransferArgs>)
      reads this
    {
      && SubmitOutcome([message], t, polls, ToUnit(r), sent)
      && (r.Done? ==> r.value == env.cellHash(message.body))
    }

    static function ToUnit<T>(r: Outcome<T>): Outcome<()> {
      match r
      case Done(_) => Done(())
      case Failed(e) => Failed(e)
      case Waiting => Waiting
    }

    method TonTransfer(to: Address, amount: int, t: Time, polls: seq<Time>) returns (r: Outcome<seq<bv8>>, sent: seq<TransferArgs>)
      requires PollsAfter(t, polls)
      ensures TransferOutcome(TonTransferMessage(to, amount), t, polls, r, sent)
      ensures r.Done? ==> r.value == env.cellHash([])
    {
      var transfer := TonTransferMessage(to, amount);
      var o;
      o, sent := Send([transfer], t, polls);
      r := match o
        case Done(_) => Done(env.cellHash(transfer.body))
        case Failed(e) => Failed(e)
        case Waiting => Waiting;
    }

    method JettonTransfer(n: string, to: Address, amount: int, tDerive: Time, t: Time, polls: seq<Time>)
      returns (r: Outcome<seq<bv8>>, sent: seq<TransferArgs>)
      requires tDerive <= t && PollsAfter(t, polls)
      ensures n !in jettonMasters ==> r == Failed(JettonContractNotFound(n)) && sent == []
      ensures n in jettonMasters ==>
                var m := CreateJettonTransferMessage(jettonMasters[n], to, amount, tDerive);
                && (m.Err? ==> r == Failed(m.error) && sent == [])
                && (m.Ok? ==> TransferOutcome(m.value, t, polls, r, sent))
    {
      var master := GetJettonMaster(n);
      if master.Err? {
        return Failed(master.error), [];
      }
      var transfer := CreateJettonTransferMessage(master.value, to, amount, tDerive);
      if transfer.Err? {
        return Failed(transfer.error), [];
      }
      var o;
      o, sent := Send([transfer.value], t, polls);
      r := match o
        case Done(_) => Done(env.cellHash(transfer.value.body))
        case Failed(e) => Failed(e)
        case Waiting => Waiting;
    }

    /** What `transferRaw` leads to: a zero amount returns the empty buffer and sends
        nothing, for every name; otherwise the message `createTransferMessageRaw` builds
        is submitted, and an error in building it sends nothing. */
    ghost predicate TransferRawOutcome(n: string, to: Address, amount: int, tDerive: Time, t: Time, polls: seq<Time>,
                                       r: Outcome<seq<bv8>>, sent: seq<TransferArgs>)
      reads this
    {
      && (amount == 0 ==> r == Done([]) && sent == [])
      && (amount != 0 ==>
            var m := CreateTransferMessageRaw(n, to, amount, tDerive);
            && (m.Err? ==> r == Failed(m.error) && sent == [])
            && (m.Ok? ==> TransferOutcome(m.value, t, polls, r, sent)))
    }

    method TransferRaw(n: string, to: Address, amount: int, tDerive: Time, t: Time, polls: seq<Time>)
      returns (r: Outcome<seq<bv8>>, sent: seq<TransferArgs>)
      requires tDerive <= t && PollsAfter(t, polls)
      ensures TransferRawOutcome(n, to, amount, tDerive, t, polls, r, sent)
      ensures r.Failed? ==> sent == []
    {
      if amount == 0 {
        return Done([]), [];
      }
      if n == TON {
        r, sent := TonTransfer(to, amount, t, polls);
      } else {
        r, sent := JettonTransfer(n, to, amount, tDerive, t, polls);
      }
    }

    /** `transfer`: the decimal amount is converted first, so an unknown name fails even
        for an amount of 0. */
    method Transfer(n: string, to: Address, amount: real, tDerive: Time, t: Time, polls: seq<Time>)
      returns (r: Outcome<seq<bv8>>, sent: seq<TransferArgs>)
      requires tDerive <= t && PollsAfter(t, polls)
      ensures ToAsset(n, amount).Err? ==> r == Failed(JettonAssetNotFound(n)) && sent == []
      ensures ToAsset(n, amount).Ok? ==> TransferRawOutcome(n, to, ToAsset(n, amount).value, tDerive, t, polls, r, sent)
    {
      var units := ToAsset(n, amount);
      if units.Err? {
        return Failed(units.error), [];
      }
      r, sent := TransferRaw(n, to, units.value, tDerive, t, polls);
    }

    /** The deploy message: to the wallet's own address, non-bounceable, `TRANSFER_FEE`
        attached and the contract's initial state carried. */
    function DeployMessage(): (m: Message)
      requires tonContract.Some?
      reads this
      ensures m.to == tonContract.value.address && m.value == TRANSFER_FEE && !m.bounce
      ensures m.init == Some(tonContract.value.init) && m.body == []
    {
      Internal(tonContract.value.address, TRANSFER_FEE, false, [], Some(tonContract.value.init))
    }

    /** Sends the deploy message, waits for the sequence number to move, then waits for
        the account to become active; done exactly when both waits saw their change. */
    method DeployContract(t: Time, seqnoPolls: seq<Time>, statePolls: seq<Time>) returns (r: Outcome<()>, sent: seq<TransferArgs>)
      requires PollsAfter(t, seqnoPolls) && PollsBefore(seqnoPolls, statePolls)
      ensures tonContract.None? || keys.None? ==> r == Failed(NotInitialized) && sent == []
      ensures tonContract.Some? && keys.Some? ==>
                && sent == [TransferArgs(SeqnoAt(t), keys.value.secretKey, PAY_GAS_SEPARATELY, [DeployMessage()])]
                && !r.Failed?
                && (r.Done? <==> Confirmed(SeqnoAt(t), seqnoPolls)
                                 && exists j :: 0 <= j < |statePolls| && CheckContractState(tonContract.value.address, statePolls[j]).active)
    {
      if tonContract.None? {
        return Failed(NotInitialized), [];
      }
      var seqno := SeqnoAt(t);
      if keys.None? {
        return Failed(NotInitialized), [];
      }
      sent := [TransferArgs(seqno, keys.value.secretKey, PAY_GAS_SEPARATELY, [DeployMessage()])];
      var w, usedSeqno := WaitSeqno(seqno, seqnoPolls);
      if !w.Done? {
        return Waiting, sent;
      }
      assert SeqnoAt(seqnoPolls[usedSeqno - 1]) != seqno;
      var address := tonContract.value.address;
      var d, usedState := WaitContractDeploy(address, statePolls);
      if d.Done? {
        assert CheckContractState(address, statePolls[usedState - 1]).active;
      }
      r := d;
    }

    /** While a jetton name is registered with decimals 0, it reads as "asset not found"
        wherever decimals are consulted: its balance, its entry of `getAllBalances` (so
        `getAllBalances` itself), and every conversion and message of a decimal amount.
        A message of base units does not consult the decimals and is still built. */
    lemma ZeroDecimalsJetton(n: string, to: Address, units: int, t: Time)
      requires Valid() && n != TON && n in jettonContracts && jettonDecimals[n] == 0
      ensures GetBalance(n, t) == Err(JettonAssetNotFound(n))
      ensures JettonEntry(n, t) == Err(JettonAssetNotFound(n))
      ensures forall amount: real :: ToAsset(n, amount) == Err(JettonAssetNotFound(n))
      ensures forall amount: real :: CreateTransferMessage(n, to, amount, t) == Err(JettonAssetNotFound(n))
      ensures CreateTransferMessageRaw(n, to, units, t) == CreateJettonTransferMessage(jettonMasters[n], to, units, t)
    {
    }

    /** Before `Init`: the native balance reads as 0, and everything that goes through the
        contract or the keys fails as not initialised. */
    lemma BeforeInit(t: Time, messages: seq<Message>, master: Address, to: Address, amount: int)
      requires Valid() && tonContract.None?
      ensures GetTonBalance(t) == Ok(0)
      ensures GetBalance(TON, t) == Ok(0.0)
      ensures GetTonAddress() == Err(NotInitialized) && GetSeqno(t) == Err(NotInitialized)
      ensures CreateJettonTransferMessage(master, to, amount, t) == Err(NotInitialized)
    {
    }
  }
}
