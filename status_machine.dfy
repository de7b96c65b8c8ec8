/** The order status state machine: the fixed table of allowed transitions
    that drives `ChangeStatus` and `Cancel`. */
module StatusMachine {
  import opened Values

  /** Position of a status on the longest path from `Pending`; every allowed
      transition moves to a strictly higher rank. */
  function Rank(s: OrderStatus): nat
  {
    match s
    case Pending => 0
    case Confirmed => 1
    case InPreparation => 2
    case Ready => 3
    case Delivered => 4
    case Cancelled => 4
  }

  /** The transition table. Every step moves forward (so no status is ever
      revisited), `Cancelled` is reachable from every status that has a
      successor, and only `Delivered` and `Cancelled` have none. */
  function AllowedTransitions(s: OrderStatus): (r: seq<OrderStatus>)
    ensures s !in r
    ensures forall t :: t in r ==> Rank(s) < Rank(t)
    ensures r == [] <==> s == Delivered || s == Cancelled
    ensures r != [] ==> Cancelled in r
  {
    match s
    case Pending => [Confirmed, Cancelled]
    case Confirmed => [InPreparation, Cancelled]
    case InPreparation => [Ready, Cancelled]
    case Ready => [Delivered, Cancelled]
    case Delivered => []
    case Cancelled => []
  }

  predicate CanTransition(from: OrderStatus, to: OrderStatus)
  {
    to in AllowedTransitions(from)
  }

  /** A status with no outgoing transition. */
  predicate IsTerminal(s: OrderStatus)
  {
    AllowedTransitions(s) == []
  }

  /** The message of the exception raised for a transition outside the table. */
  function InvalidTransitionMessage(from: OrderStatus, to: OrderStatus): string
  {
    "Invalid status transition from " + StatusName(from) + " to " + StatusName(to) + "."
  }

  /** A sequence of statuses each of which is an allowed successor of the
      previous one: the statuses an order passes through via effective
      `ChangeStatus` calls. */
  predicate IsRun(run: seq<OrderStatus>)
  {
    forall i :: 0 <= i < |run| - 1 ==> CanTransition(run[i], run[i + 1])
  }

  /** Along a run the rank grows by at least one per step. */
  lemma {:induction false} RunRankGrows(run: seq<OrderStatus>, i: nat)
    requires IsRun(run) && i < |run|
    ensures Rank(run[0]) + i <= Rank(run[i])
  {
    if i > 0 {
      RunRankGrows(run, i - 1);
      assert CanTransition(run[i - 1], run[i]);
    }
  }

  /** No run is longer than five statuses: an order changes status
      effectively at most four times in its life. */
  lemma RunIsShort(run: seq<OrderStatus>)
    requires IsRun(run)
    ensures |run| <= 5
  {
    if |run| > 5 {
      RunRankGrows(run, 5);
    }
  }

  /** No status occurs twice along a run. */
  lemma RunVisitsEachStatusOnce(run: seq<OrderStatus>, i: nat, j: nat)
    requires IsRun(run) && i < j < |run|
    ensures run[i] != run[j]
  {
    var tail := run[i..];
    assert IsRun(tail) by {
      forall k | 0 <= k < |tail| - 1
        ensures CanTransition(tail[k], tail[k + 1])
      {
        assert tail[k] == run[i + k] && tail[k + 1] == run[i + k + 1];
      }
    }
    RunRankGrows(tail, j - i);
    assert tail[j - i] == run[j];
  }

  /** Once an order is delivered or cancelled no transition leaves it: in a
      run only the last status can be terminal. */
  lemma TerminalIsAbsorbing(run: seq<OrderStatus>, i: nat)
    requires IsRun(run) && i < |run| - 1
    ensures !IsTerminal(run[i])
  {
    assert CanTransition(run[i], run[i + 1]);
  }

  /** The fulfilment path of an order is a run. */
  lemma FulfilmentIsARun()
    ensures IsRun([Pending, Confirmed, InPreparation, Ready, Delivered])
  {
    var run := [Pending, Confirmed, InPreparation, Ready, Delivered];
    assert CanTransition(run[0], run[1]) && CanTransition(run[1], run[2]);
    assert CanTransition(run[2], run[3]) && CanTransition(run[3], run[4]);
  }
}
