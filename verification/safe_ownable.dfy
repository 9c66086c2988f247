/** The single-owner access-control state of a `SafeOwnable` contract and its
    one-step operations. Each operation takes the calling account explicitly
    and either returns the new state with the events it emits, or reverts with
    a reason string; a revert carries no state, so nothing it did survives. */
module SafeOwnable {
  import opened Results

  /** An account identity. `Zero` is the zero address, which stands for "no one". */
  datatype Identity = Zero | Account(id: nat)

  /** The account that sends a call. A chain never sends a call from the
      zero address, so a sender is always a real account. */
  type Sender = i: Identity | i != Zero witness Account(0)

  /** The state the tests observe: the current owner, readable through `owner()`. */
  datatype State = State(owner: Identity)

  /** The `OwnershipTransferred(previousOwner, newOwner)` event. */
  datatype Event = OwnershipTransferred(previousOwner: Identity, newOwner: Identity)

  /** The effect of a call that did not revert. */
  datatype Effect = Effect(state: State, events: seq<Event>)

  const NotOwnerReason: string := "SafeOwnable: caller is not the owner"
  const ZeroOwnerReason: string := "SafeOwnable: new owner is the zero address"

  /** Deployment: the deploying account becomes the owner. */
  function Deploy(deployer: Sender): (s: State)
    ensures s.owner == deployer
  {
    State(deployer)
  }

  /** The owner check that reverts with "caller is not the owner": only the
      current owner may proceed. */
  predicate IsOwner(s: State, caller: Sender)
  {
    caller == s.owner
  }

  /** `transferOwnership(newOwner)`: owner-only, refuses the zero address, and
      hands authority to `newOwner` at once, with no acceptance step. */
  function TransferOwnership(s: State, caller: Sender, newOwner: Identity): (r: Result<Effect, string>)
    ensures r.Ok? <==> IsOwner(s, caller) && newOwner != Zero
    ensures r.Ok? ==> r.value.state.owner == newOwner
    ensures r.Ok? ==> OwnershipTransferred(s.owner, newOwner) in r.value.events
    ensures !IsOwner(s, caller) && newOwner != Zero ==> r == Err(NotOwnerReason)
    ensures IsOwner(s, caller) && newOwner == Zero ==> r == Err(ZeroOwnerReason)
    ensures r.Err? ==> r.reason == NotOwnerReason || r.reason == ZeroOwnerReason
  {
    if !IsOwner(s, caller) then Err(NotOwnerReason)
    else if newOwner == Zero then Err(ZeroOwnerReason)
    else Ok(Effect(State(newOwner), [OwnershipTransferred(s.owner, newOwner)]))
  }

  /** `renounceOwnership()`: owner-only; leaves the contract owned by the zero address. */
  function RenounceOwnership(s: State, caller: Sender): (r: Result<Effect, string>)
    ensures r.Ok? <==> IsOwner(s, caller)
    ensures r.Ok? ==> r.value.state.owner == Zero
    ensures r.Ok? ==> OwnershipTransferred(s.owner, Zero) in r.value.events
    ensures r.Err? ==> r.reason == NotOwnerReason
  {
    if !IsOwner(s, caller) then Err(NotOwnerReason)
    else Ok(Effect(State(Zero), [OwnershipTransferred(s.owner, Zero)]))
  }
}
