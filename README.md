# wallet-js core, modelled in Dafny

`wallet-js` wraps a TON V5R1 wallet contract. A `Wallet` derives its keys and
contract from a mnemonic. It keeps four name-keyed registries for the jettons it
holds: masters, sub-account contracts, cached contract states and decimals. It
reads balances, builds native and jetton transfer messages, submits them and waits
for the wallet's sequence number to move. It can also deploy its own contract.
`TonClientAbstract` puts three network backends behind one interface:
`TonClient`, `TonClient4` and the lite client. It normalises their account answers
to `{deployed, active}` and runs get-methods.

The model has five modules:

- `Ton` (`ton.dfy`) holds the shared values: addresses, block ids, cells as field
  sequences, tuple items, messages, account-state answers, errors and `Result`.
- `Tep74` (`tep74.dfy`) is the `transfer` body layout of the Jetton standard
  (TEP-74). It has an encoder and a decoder, proved to round-trip.
- `Units` (`units.dfy`) scales between decimal amounts and base units, over exact
  reals.
- `ClientAbstract` (`client_abstract.dfy`) is the three-way backend normaliser, as
  pure functions. Each operation returns the requests it sent with its answer, so
  the block reference of every request can be stated.
- `Wallet` (`wallet.dfy`) is the class `Wallet`. Its fields are updated in place by
  `Init` and `AddJetton`. The polling loops are methods with loop invariants.

How the network is modelled:

- The network is a set of oracles.
- An answer that depends on "the latest block" is a function of the moment
  (`Time`) at which it is requested. Block-indexed queries are functions of the
  block.
- A polling loop takes the finite sequence of moments at which it polls. When that
  sequence runs out it returns `Waiting`, meaning the source would still be
  polling.
- Transfers handed to `sendTransfer` are returned as the out-parameter `sent`.
- The transfer operations take the poll moments as an argument and require them
  to come after the moment of submission. The jetton transfers also require the
  sub-account derivation to come no later than submission. `deployContract` also
  requires its state polls to come after its sequence-number polls.

Some behaviours of the code are easy to miss. The model states each of them:

- `getBalance("TON")` before `init` does not fail as uninitialised. It reads the
  cached state `{active: false, deployed: false}` and returns 0.
- Re-initialisation is not guarded. A second `init` re-derives keys, contract and
  state.
- A native transfer returns the hash of its message body. That body is always
  empty, so every confirmed native transfer returns the same hash.
- While a jetton name is registered with decimals 0, it counts as "asset not
  found" wherever decimals are consulted. Its balance, its `getAllBalances` entry
  (so `getAllBalances` itself), `transfer` and `createTransferMessage` all fail
  until the name is registered again with non-zero decimals. `transferRaw` and
  `createTransferMessageRaw` do not consult the decimals and still work.
- The cached contract states are never refreshed. `deployContract` does not write
  the native state, so a wallet initialised before its deployment still reads a
  native balance of 0 after the deployment is confirmed, until `init` runs again.
  A jetton sub-account deployed after `addJetton` reads 0 in the same way until
  the jetton is added again. `DeployContract` changes no field of the wallet.

## Model

| member | source | states |
|---|---|---|
| ClientAbstract.LiteContractState | src/ton-client-abstract.ts:54-62 | deployed exactly when the account state is non-null, active exactly when the storage type is 'active', so active implies deployed |
| ClientAbstract.GetContractState | src/ton-client-abstract.ts:40-63 | fresh reference on every call (TonClient4 asks for the last block first and uses its seqno, the lite client asks for the masterchain info first and uses its block, TonClient sends one unreferenced request); the lite branch is `LiteContractState` of the account at the fetched block; on the HTTP backends a null answer is a TypeError, otherwise active follows the status tag and deployed is true; every answer has active ⇒ deployed |
| ClientAbstract.IsContractDeployed | src/ton-client-abstract.ts:27-38 | same reference discipline; HTTP backends return their own deployment answer at the fresh reference; on the lite client it equals the `active` flag of `GetContractState` and sends the same requests |
| ClientAbstract.RunGetMethod | src/ton-client-abstract.ts:65-91 | fresh reference; the last request runs `name` on `address`; HTTP backends return their stacks; the lite client sends the serialised arguments, and an absent or empty answer gives the empty reader, otherwise the parsed tuple |
| ClientAbstract.RunGetMethodDefault | src/ton-client-abstract.ts:68 | an omitted argument list is the empty list |
| ClientAbstract.SameHeadSameAnswer | src/ton-client-abstract.ts:21-91 | on `TonClient4` and the lite client, calls at two moments with the same latest block send the same requests and give the same answer, for state, deployment and get-method alike |
| Tep74.DecodeCustomPayload | src/wallet.ts:168 | the fields read are exactly the encoding of the custom payload decoded |
| Tep74.DecodeForwardPayload | src/wallet.ts:170 | the fields read are exactly the encoding of the forward payload decoded |
| Tep74.Decode | src/wallet.ts:162-171 | a body that decodes re-encodes to itself |
| Tep74.DecodeEncode | src/wallet.ts:162-171 | every TEP-74 transfer decodes back from its encoding |
| Wallet.JettonTransferBody | src/wallet.ts:162-171 | the hand-built body is the TEP-74 encoding of opcode 0x0f8a7ea5, query id 0, amount, `to` as destination and response destination, no custom payload, forward amount 1 and an empty inline forward payload, and it decodes to that transfer |
| Units.Pow10 | src/wallet.ts:332 | 10 to any integer power is positive |
| Units.ToBaseUnits | src/wallet.ts:337 | the base units are within half a unit of the amount times 10^d |
| Units.FromBaseUnits | src/wallet.ts:347 | the amount times 10^d gives back the base units |
| Units.Round | src/wallet.ts:332 | `Math.round`: the result is within half of the argument, halves going up |
| Units.ToFromWithinHalfUnit | src/wallet.ts:330-348 | converting to base units and back lands within half a base unit of the amount |
| Units.FromToExact | src/wallet.ts:330-348 | base units converted to an amount and back are unchanged |
| Ton.ReadAddress | src/wallet.ts:131-133 | succeeds exactly when the first tuple item is a slice starting with an address, and then returns that address; every other tuple is `TupleReadError` |
| Ton.StorageType | src/ton-client-abstract.ts:59 | the optional chain `state?.storage?.state.type`: defined exactly when the account and its storage exist, and then the storage's status |
| Wallet.TonTransferMessage | src/wallet.ts:226-230 | the native message goes to `to`, carries exactly `amount`, is non-bounceable, and has no body and no init |
| Wallet.Wallet.constructor | src/wallet.ts:34-46 | a new wallet has no keys and no contract, the cached state is {active: false, deployed: false}, and the four registries are empty |
| Wallet.Wallet.OwnContract | src/wallet.ts:50-56 | the initial state is V5R1 on workchain 0 with the public key and the network id, and the address is on workchain 0 and is the hash of that state |
| Wallet.Wallet.CheckContractState | src/wallet.ts:105-113 | equals the lite branch of `GetContractState` at the fetched block, so active implies deployed |
| Wallet.Wallet.Init | src/wallet.ts:48-59 | keys come from the mnemonic, the contract from the keys and network id, the cached state from `CheckContractState` of the contract's address; the registries are unchanged; `Valid` is kept |
| Wallet.Wallet.GetSeqno | src/wallet.ts:211-213 | fails as not initialised exactly when there is no contract, otherwise the contract's sequence number at that moment |
| Wallet.Wallet.GetTonAddress | src/wallet.ts:270-272 | fails as not initialised exactly when there is no contract, otherwise the contract's address |
| Wallet.Wallet.ParseJettonAddress | src/wallet.ts:115-134 | asks the master's `get_wallet_address` with the owner's address as a slice at the fetched block; an absent or empty answer fails with "no result", otherwise the address read from the returned tuple; on an answer it equals `ReadAddress` of the lite `RunGetMethod` reader, and on no answer it fails where the lite `RunGetMethod` gives the empty reader, which reads as `TupleReadError` |
| Wallet.Wallet.JettonWalletAddress | src/wallet.ts:160 | fails as not initialised before `Init`, otherwise derives the sub-account from the own address and the master |
| Wallet.Wallet.AddJetton | src/wallet.ts:181-190 | the master is stored under the name (overwriting) before derivation; a failed derivation returns its error and leaves the other three registries unchanged; otherwise contract, state and decimals are stored under that name and every other name keeps its entries; keys, contract and cached state are untouched; `Valid` is kept |
| Wallet.Wallet.GetJettonContract | src/wallet.ts:145-150 | found exactly for a registered contract name, otherwise "Jetton contract … not found"; `getJettonAddress` (src/wallet.ts:274-276) returns this address |
| Wallet.Wallet.GetJettonMaster | src/wallet.ts:152-157 | found exactly for a registered master name, otherwise "Jetton contract … not found" |
| Wallet.Wallet.Decimals | src/wallet.ts:330-347 | 9 for "TON"; for another name found exactly when its decimals are registered and non-zero, otherwise "Jetton asset … not found" |
| Wallet.Wallet.ToAsset | src/wallet.ts:330-338 | succeeds exactly when the decimals are found and is then the amount scaled up and rounded; otherwise "Jetton asset … not found" |
| Wallet.Wallet.FromAsset | src/wallet.ts:340-348 | succeeds exactly when the decimals are found and is then the base units scaled down; otherwise "Jetton asset … not found" |
| Wallet.Wallet.AssetRoundTrip | src/wallet.ts:330-348 | an amount converted to base units and back is within half a base unit of the name's decimals |
| Wallet.Wallet.BaseUnitsRoundTrip | src/wallet.ts:330-348 | base units converted to an amount and back are unchanged |
| Wallet.Wallet.GetTonBalance | src/wallet.ts:196-201 | 0 whenever the cached state is not deployed (so before `Init` too), otherwise the contract's balance; never fails on a valid wallet |
| Wallet.Wallet.GetJettonBalance | src/wallet.ts:203-209 | 0 for a name with no cached state or an undeployed one, otherwise the balance of the registered contract; never fails on a valid wallet |
| Wallet.Wallet.GetBalance | src/wallet.ts:278-285 | "TON" scales the native balance, any other name scales its jetton balance, by that name's decimals; on a valid wallet it succeeds exactly when the decimals are found |
| Wallet.Wallet.JettonEntry | src/wallet.ts:263-265 | for a name other than "TON", the entry is `GetBalance` of that name |
| Wallet.Wallet.GetAllBalances | src/wallet.ts:259-268 | succeeds exactly when the native entry and every registered jetton entry succeed; the keys are "TON" and the registered contract names, each jetton entry is its balance, a jetton named "TON" replaces the native entry; a failure is the error of one of the entries |
| Wallet.Wallet.CreateJettonTransferMessage | src/wallet.ts:159-179 | fails exactly when the sub-account derivation fails (before `Init` too), otherwise a bounceable message to the derived sub-account with `TRANSFER_FEE` and a body that decodes as the TEP-74 transfer for `to` and `amount` |
| Wallet.Wallet.CreateTransferMessageRaw | src/wallet.ts:298-308 | "TON" gives `TonTransferMessage` of `to` and `amount`; another name needs a registered master and then is the jetton transfer message |
| Wallet.Wallet.CreateTransferMessage | src/wallet.ts:310-313 | converts the amount first, so an unknown asset fails; otherwise `CreateTransferMessageRaw` of the base units |
| Wallet.Wallet.WaitSeqno | src/wallet.ts:136-143 | fails as not initialised without a contract; a returned sequence number is the one read at the last poll, differs from `seqno`, and every earlier poll read `seqno`; it polls at least once before returning; still waiting means every poll read `seqno` |
| Wallet.Wallet.WaitContractDeploy | src/wallet.ts:75-82 | never fails; done exactly at the first poll where the account is active, still waiting means no poll saw it active |
| Wallet.Wallet.Send | src/wallet.ts:287-296 | before `Init` fails and sends nothing; otherwise sends one transfer signed with the secret key, with the sequence number read at the submission moment `t` and `PAY_GAS_SEPARATELY`; with every poll moment after `t`, done exactly when one of the polls sees a different sequence number |
| Wallet.Wallet.TonTransfer | src/wallet.ts:224-239 | as `Send` with `TonTransferMessage`; once confirmed, returns the hash of its body, which is the hash of the empty cell |
| Wallet.Wallet.JettonTransfer | src/wallet.ts:241-257 | an unknown master fails and sends nothing; a failed derivation fails and sends nothing; otherwise as `Send` with the jetton transfer message, returning the hash of its body |
| Wallet.Wallet.TransferRaw | src/wallet.ts:315-323 | amount 0 returns the empty buffer and sends nothing, for any name; otherwise submits what `CreateTransferMessageRaw` builds, or fails and sends nothing when that fails; a failure never sends anything |
| Wallet.Wallet.Transfer | src/wallet.ts:325-328 | an asset without decimals fails even for amount 0 and sends nothing; otherwise `TransferRaw` of the converted amount |
| Wallet.Wallet.DeployMessage | src/wallet.ts:91-97 | a non-bounceable message to the own address with `TRANSFER_FEE`, no body, carrying the contract's initial state |
| Wallet.Wallet.DeployContract | src/wallet.ts:84-103 | before `Init` fails and sends nothing; otherwise sends exactly the deploy message against the sequence number read first; with the seqno polls after `t` and the state polls after them, done exactly when one seqno poll saw the number move and one state poll saw the account active |
| Wallet.Wallet.ZeroDecimalsJetton | src/wallet.ts:344-346 | on a valid wallet, a registered jetton with decimals 0 fails as "asset not found" for its balance, for its `getAllBalances` entry (so `GetAllBalances` fails), for the conversion of any decimal amount and for `CreateTransferMessage`; the base-unit message `CreateTransferMessageRaw` is still the jetton transfer message |
| Wallet.Wallet.BeforeInit | src/wallet.ts:61-73 | on a valid wallet without a contract: the native balance is 0, while the address, the sequence number and a jetton transfer message fail as not initialised |

## Left out

- `open` of `TonClientAbstract` forwards to the backend's own `open`, which is outside this model.
- `getMnemonic` returns the constructor argument, and `createTransfer` only forwards to the contract's signer. Neither is modelled.
- `toAddress` and `Address.parse`: addresses are values of `Address`, so string parsing and its errors are outside the model.
- The `checkInterval` delay and `timeout`: the gap between poll moments is the delay.
- Wallet.Wallet.WaitSeqno: termination of the polling loops is not claimed. With a finite sequence of poll moments the loop ends as `Waiting`. Wallet.Wallet.WaitContractDeploy is in the same position.
- Key derivation (`mnemonicToPrivateKey`), contract address hashing, cell hashing, signing and `sendTransfer` are oracles. The transfer handed to `sendTransfer` is returned, not performed.
- Cell, BOC and tuple serialisation (`serializeTuple`, `parseTuple`, base64): a cell is its field sequence, and the two tuple conversions are oracles of the lite client. Tuple items are integers, nulls and slices only; the cell and builder items that the library's `readAddress` also accepts are not modelled.
- `storeCoins` range checks: values of `Coins` are unbounded integers.
- Wallet.Wallet.ToAsset: scaling is over exact reals, not IEEE doubles. NaN, infinities and rounding error of `amount * 10 ** d` are not modelled. Wallet.Wallet.FromAsset is the same.
- Wallet.JettonConfig: decimals are integers, but in the code they are a JavaScript number. A NaN decimals entry, which also reads as "not found", and a fractional one, which scales by a fractional power of ten, are not modelled.
- `Promise.all` in `getAllBalances` runs concurrently. The model is a loop over the names in an arbitrary order. When several entries fail, which error surfaces is only constrained to be one of theirs.
- Inherited keys of plain JavaScript objects (such as `constructor`) are not modelled; the registries are maps.
- Network failures and exceptions thrown by backends are not modelled. Every backend call answers.
- `console.log` in `deployContract` is output only.
