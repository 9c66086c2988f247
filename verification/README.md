# SafeOwnable ownership state machine in Dafny

This project models the single-owner access control of the `SafeOwnable`
contract that `test/access/SafeOwnable.test.js` tests, as that test suite pins
it down. The tests observe one piece of state, `owner()`. Deploying the
contract makes the deploying account the owner. The owner may call
`transferOwnership(newOwner)` to hand authority to any non-zero account at
once, or `renounceOwnership()` to leave the contract owned by the zero
address. Each change emits `OwnershipTransferred`. A guarded call from anyone
else reverts with a reason string, and a revert rolls back everything the call
did.

Modules:

- `Results` (`results.dfy`): `Result`, either `Ok(value)` for a call that
  takes effect or `Err(reason)` for one that reverts.
- `SafeOwnable` (`safe_ownable.dfy`): `Identity` (the zero address `Zero` or
  an `Account`), `Sender` (an identity that can send a call, never `Zero`),
  the `State`, the `OwnershipTransferred` event and the two
  revert reasons. It also holds deployment, the owner check that reverts with
  "caller is not the owner" (`IsOwner`) and the two
  operations. Each operation is a pure function of the state and the explicit
  caller. The `owner()` getter is the `owner` field of `State`.
- `Transactions` (`transactions.dfy`): calls as data, revert rollback
  (`Commit`) and runs of many calls (`Run`). It also holds the lemmas about
  call sequences: only the owner can act, renouncement is irreversible, and
  transfers never strand the contract.
- `EventLog` (`event_log.dfy`): the event log as a record of authority.
  Replaying the `OwnershipTransferred` events from the initial owner always
  gives the current owner.

## Model

| member | source | states |
|---|---|---|
| SafeOwnable.Deploy | test/access/SafeOwnable.test.js:11-17 | after deployment by an account, `owner()` is that account |
| SafeOwnable.TransferOwnership | test/access/SafeOwnable.test.js:19-39 | succeeds exactly when the caller is the owner and the new owner is not the zero address; then the new owner holds authority at once and an `OwnershipTransferred(old, new)` event is among the emitted events; a non-owner transferring to a real account gets "caller is not the owner"; the owner transferring to the zero address gets "new owner is the zero address"; every failure carries one of these two reasons |
| SafeOwnable.RenounceOwnership | test/access/SafeOwnable.test.js:42-55 | succeeds exactly when the caller is the owner; then the owner is the zero address and an `OwnershipTransferred(old, zero)` event is emitted; otherwise it fails with "caller is not the owner" |
| Transactions.Execute | test/access/SafeOwnable.test.js:19-55 | a call succeeds exactly when its sender is the owner and, for a transfer, the target is not the zero address; a successful transfer installs the target and a successful renouncement installs the zero address |
| Transactions.Commit | test/access/SafeOwnable.test.js:27-38 | a reverted call leaves the state unchanged and emits nothing; a successful call takes full effect |
| Transactions.OutsidersCannotAct | test/access/SafeOwnable.test.js:27-31 | if the current owner sends none of a sequence of calls, all of them revert: the state is unchanged and no event is logged |
| Transactions.RenouncedIsTerminal | test/access/SafeOwnable.test.js:43-54 | once the owner is the zero address, every later call reverts (no sender is the zero address), so the contract stays unowned and logs nothing |
| Transactions.RenounceIsIrreversible | test/access/SafeOwnable.test.js:43-47 | after the owner renounces, no sequence of later calls gives the contract an owner again, and the renouncement's event is in the log |
| Transactions.DeployedStaysOwned | test/access/SafeOwnable.test.js:11-39 | a freshly deployed contract, owned by its deployer, is still owned by a real account after any sequence of calls that contains no renouncement |
| Transactions.TransfersNeverStrand | test/access/SafeOwnable.test.js:34-38 | without a renouncement, a contract owned by a real account stays owned by a real account after any sequence of calls |
| EventLog.CommitIsLogged | test/access/SafeOwnable.test.js:21-24 | the events of one call form a chain from the owner before it, ending at the owner after it |
| EventLog.RunIsLogged | test/access/SafeOwnable.test.js:43-47 | the log of any run is a chain of `OwnershipTransferred` events from the initial owner whose replay gives the final owner; a run that logs nothing leaves the state unchanged |
| EventLog.UnownedOnlyByLoggedRenouncement | test/access/SafeOwnable.test.js:43-47 | a contract owned by a real account ends a run unowned only if the last event of the run hands ownership to the zero address, whatever calls the run contains |

## Left out

- The Solidity source of `SafeOwnableMock`, the contract the tests deploy,
  is not part of this model. Any storage of it other than the owner the tests
  read through `owner()` is not modelled. The behaviour modelled is what the test
  suite asserts about it.
- Exact event contents: the tests only check that an `OwnershipTransferred`
  event is present. The model emits exactly one
  `OwnershipTransferred(previousOwner, newOwner)` per successful call. The
  `EventLog` lemmas depend on this modelling choice.
- Constructor event: whether deployment emits `OwnershipTransferred(zero,
  deployer)` is not observed by the tests, so `Deploy` returns only the state.
- Guard order: for a non-owner transferring to the zero address, the model
  checks the owner guard first. No test covers this case, and no contract
  here states which reason is returned.
- Zero-address callers: a chain never sends a call from the zero address, so
  every caller has the type `Sender`, an identity other than `Zero`. A call
  from the zero address cannot be written in the model.
- Two-step ownership transfer (nominate a pending owner, who then accepts):
  the tests show only immediate transfer, so no pending-owner field or accept
  operation is modelled.
- EVM details: address encoding (identities are `Zero` or `Account(n)` with
  an unbounded `n`), gas, transaction receipts and event ABI encoding.
- Test-harness plumbing (truffle artifacts, chai, `expectEvent`,
  `expectRevert`): these only observe the state machine.
- Concurrency and reentrancy: calls are executed one at a time to completion.
