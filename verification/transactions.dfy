/** Sequences of calls against one `SafeOwnable` contract, executed one at a
    time. A call that reverts is rolled back in full: the state is untouched
    and none of its events reach the log. */
module Transactions {
  import opened Results
  import opened SafeOwnable

  /** One external call, with the account that sends it. */
  datatype Call =
    | Transfer(caller: Sender, newOwner: Identity)
    | Renounce(caller: Sender)

  /** Dispatch a call to the operation it names. */
  function Execute(s: State, c: Call): (r: Result<Effect, string>)
    ensures r.Ok? <==> IsOwner(s, c.caller) && (c.Transfer? ==> c.newOwner != Zero)
    ensures r.Ok? && c.Transfer? ==> r.value.state.owner == c.newOwner
    ensures r.Ok? && c.Renounce? ==> r.value.state.owner == Zero
  {
    match c
    case Transfer(caller, newOwner) => TransferOwnership(s, caller, newOwner)
    case Renounce(caller) => RenounceOwnership(s, caller)
  }

  /** The lasting effect of a call: a reverted call leaves the state as it was
      and emits nothing. */
  function Commit(s: State, c: Call): (r: Effect)
    ensures Execute(s, c).Err? ==> r.state == s && r.events == []
    ensures Execute(s, c).Ok? ==> r == Execute(s, c).value
  {
    match Execute(s, c)
    case Ok(effect) => effect
    case Err(_) => Effect(s, [])
  }

  /** Run calls in order, threading the state and concatenating the event logs. */
  function Run(s: State, calls: seq<Call>): (r: Effect)
    decreases |calls|
  {
    if calls == [] then Effect(s, [])
    else
      var first := Commit(s, calls[0]);
      var rest := Run(first.state, calls[1..]);
      Effect(rest.state, first.events + rest.events)
  }

  /** No call in `calls` is sent by the owner recorded in `s`. */
  predicate NoneSentByOwner(s: State, calls: seq<Call>)
  {
    forall i :: 0 <= i < |calls| ==> !IsOwner(s, calls[i].caller)
  }

  /** No call in `calls` is a renouncement. */
  predicate NoRenounce(calls: seq<Call>)
  {
    forall i :: 0 <= i < |calls| ==> !calls[i].Renounce?
  }

  /** Only the owner can act: if the owner sends none of the calls, every one
      of them reverts, so the state is unchanged and nothing is logged. */
  lemma {:induction false} OutsidersCannotAct(s: State, calls: seq<Call>)
    requires NoneSentByOwner(s, calls)
    ensures Run(s, calls) == Effect(s, [])
    decreases |calls|
  {
    if calls != [] {
      assert !IsOwner(s, calls[0].caller);
      assert Commit(s, calls[0]) == Effect(s, []);
      assert NoneSentByOwner(s, calls[1..]) by {
        forall i | 0 <= i < |calls[1..]|
          ensures !IsOwner(s, calls[1..][i].caller)
        {
          assert calls[1..][i] == calls[i + 1];
        }
      }
      OutsidersCannotAct(s, calls[1..]);
    }
  }

  /** A contract owned by the zero address rejects every later call, since
      no sender is the zero address. */
  lemma RenouncedIsTerminal(s: State, calls: seq<Call>)
    requires s.owner == Zero
    ensures Run(s, calls).state.owner == Zero
    ensures Run(s, calls).events == []
  {
    OutsidersCannotAct(s, calls);
  }

  /** Renouncement is irreversible: once the owner renounces, no sequence of
      later calls gives the contract an owner again. */
  lemma RenounceIsIrreversible(s: State, later: seq<Call>)
    requires s.owner != Zero
    ensures Run(s, [Renounce(s.owner)] + later).state.owner == Zero
    ensures OwnershipTransferred(s.owner, Zero) in Run(s, [Renounce(s.owner)] + later).events
  {
    var calls := [Renounce(s.owner)] + later;
    assert calls[0] == Renounce(s.owner);
    assert calls[1..] == later;
    var first := Commit(s, calls[0]);
    RenouncedIsTerminal(first.state, later);
  }

  /** Transfers cannot strand the contract: without a renouncement, an owned
      contract stays owned by a real account after any sequence of calls. */
  lemma {:induction false} TransfersNeverStrand(s: State, calls: seq<Call>)
    requires s.owner != Zero
    requires NoRenounce(calls)
    ensures Run(s, calls).state.owner != Zero
    decreases |calls|
  {
    if calls != [] {
      var first := Commit(s, calls[0]);
      assert !calls[0].Renounce?;
      assert first.state.owner != Zero;
      assert NoRenounce(calls[1..]) by {
        forall i | 0 <= i < |calls[1..]|
          ensures !calls[1..][i].Renounce?
        {
          assert calls[1..][i] == calls[i + 1];
        }
      }
      TransfersNeverStrand(first.state, calls[1..]);
    }
  }

  /** A freshly deployed contract is owned by its deployer, a real account,
      so no run without a renouncement leaves it unowned. */
  lemma DeployedStaysOwned(deployer: Sender, calls: seq<Call>)
    requires NoRenounce(calls)
    ensures Run(Deploy(deployer), calls).state.owner != Zero
  {
    TransfersNeverStrand(Deploy(deployer), calls);
  }
}
