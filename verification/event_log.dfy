/** The `OwnershipTransferred` log as a record of authority. Every change of
    owner is logged, with the owner before and after, so an observer that
    replays the log from the initial owner always knows the current one. */
module EventLog {
  import opened SafeOwnable
  import opened Transactions

  /** Each event starts from the owner the previous event ended at. */
  predicate Chained(from: Identity, log: seq<Event>)
    decreases |log|
  {
    log == [] || (log[0].previousOwner == from && Chained(log[0].newOwner, log[1..]))
  }

  /** The owner an observer arrives at by following the log from `from`. */
  function Replay(from: Identity, log: seq<Event>): (owner: Identity)
    decreases |log|
  {
    if log == [] then from else Replay(log[0].newOwner, log[1..])
  }

  /** Replaying two logs in a row is replaying their concatenation. */
  lemma {:induction false} ReplayAppend(from: Identity, a: seq<Event>, b: seq<Event>)
    ensures Chained(from, a + b) <==> Chained(from, a) && Chained(Replay(from, a), b)
    ensures Replay(from, a + b) == Replay(Replay(from, a), b)
    decreases |a|
  {
    if a == [] {
      assert a + b == b;
    } else {
      assert (a + b)[0] == a[0];
      assert (a + b)[1..] == a[1..] + b;
      ReplayAppend(a[0].newOwner, a[1..], b);
    }
  }

  /** One call's lasting effect is logged faithfully. */
  lemma CommitIsLogged(s: State, c: Call)
    ensures Chained(s.owner, Commit(s, c).events)
    ensures Replay(s.owner, Commit(s, c).events) == Commit(s, c).state.owner
  {
  }

  /** The log of any run is a chain from the initial owner whose replay is the
      final owner; in particular a run that logs nothing changes nothing. */
  lemma {:induction false} RunIsLogged(s: State, calls: seq<Call>)
    ensures Chained(s.owner, Run(s, calls).events)
    ensures Replay(s.owner, Run(s, calls).events) == Run(s, calls).state.owner
    ensures Run(s, calls).events == [] ==> Run(s, calls).state == s
    decreases |calls|
  {
    if calls != [] {
      var first := Commit(s, calls[0]);
      var rest := Run(first.state, calls[1..]);
      CommitIsLogged(s, calls[0]);
      RunIsLogged(first.state, calls[1..]);
      ReplayAppend(s.owner, first.events, rest.events);
    }
  }

  /** Following a non-empty log ends at the new owner of its last event. */
  lemma {:induction false} ReplayEndsAtLastEvent(from: Identity, log: seq<Event>)
    requires log != []
    ensures Replay(from, log) == log[|log| - 1].newOwner
    decreases |log|
  {
    if |log| > 1 {
      ReplayEndsAtLastEvent(log[0].newOwner, log[1..]);
    }
  }

  /** An owned contract ends up unowned only through a logged renouncement:
      if a run leaves it owned by the zero address, the last event of the run
      hands ownership to the zero address. */
  lemma UnownedOnlyByLoggedRenouncement(s: State, calls: seq<Call>)
    requires s.owner != Zero
    ensures Run(s, calls).state.owner == Zero ==>
              Run(s, calls).events != [] &&
              Run(s, calls).events[|Run(s, calls).events| - 1].newOwner == Zero
  {
    var r := Run(s, calls);
    RunIsLogged(s, calls);
    if r.state.owner == Zero {
      assert r.events != [];
      ReplayEndsAtLastEvent(s.owner, r.events);
    }
  }
}
