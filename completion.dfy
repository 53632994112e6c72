/** Concurrent runs whose errors are collected in a buffered channel and of
    which only the first received is returned (the pattern shared by
    `EventSystem.EmitEvent` and `MixtureWorkflow.Execute`). The runs'
    outcomes are given; the order in which the runs complete is chosen by
    the scheduler, here by `Gather`. */
module Completions {
  import opened Wrappers

  /** The positions `0 .. n-1`. */
  function Indices(n: nat): (r: set<nat>)
    ensures |r| == n
    ensures forall i: int :: i in r <==> 0 <= i < n
  {
    if n == 0 then {} else Indices(n - 1) + {n - 1}
  }

  /** `order` lists each of the positions `0 .. n-1` once. */
  ghost predicate IsCompletionOrder(order: seq<nat>, n: nat)
  {
    |order| == n
    && (forall k | 0 <= k < |order| :: order[k] < n)
    && (forall i | 0 <= i < n :: i in order)
  }

  /** The outcomes in the order given. */
  function Permute(os: seq<Outcome>, order: seq<nat>): (ps: seq<Outcome>)
    requires forall k | 0 <= k < |order| :: order[k] < |os|
    ensures |ps| == |order|
    ensures forall k | 0 <= k < |order| :: ps[k] == os[order[k]]
  {
    seq(|order|, k requires 0 <= k < |order| => os[order[k]])
  }

  /** The first failure of a sequence of outcomes, or `Pass`. */
  function FirstFailure(os: seq<Outcome>): Outcome
    decreases |os|
  {
    if os == [] then Pass else if os[0].Fail? then os[0] else FirstFailure(os[1..])
  }

  /** `FirstFailure` passes exactly when every outcome passes, and otherwise it
      is one of the outcomes, with only passes before it. */
  lemma {:induction false} FirstFailureMeaning(os: seq<Outcome>)
    ensures FirstFailure(os) == Pass <==> forall i | 0 <= i < |os| :: os[i] == Pass
    ensures FirstFailure(os).Fail? ==>
      exists k | 0 <= k < |os| :: os[k] == FirstFailure(os) && forall i | 0 <= i < k :: os[i] == Pass
    decreases |os|
  {
    if os != [] && os[0].Pass? {
      FirstFailureMeaning(os[1..]);
      assert forall i | 1 <= i < |os| :: os[i] == os[1..][i - 1];
      if FirstFailure(os).Fail? {
        var k :| 0 <= k < |os[1..]| && os[1..][k] == FirstFailure(os[1..]) && forall i | 0 <= i < k :: os[1..][i] == Pass;
        assert os[k + 1] == FirstFailure(os);
      }
    }
  }

  /** Receiving one more outcome changes the first failure only if there was
      none yet. */
  lemma {:induction false} FirstFailureSnoc(os: seq<Outcome>, o: Outcome)
    ensures FirstFailure(os + [o]) == if FirstFailure(os).Fail? then FirstFailure(os) else o
    decreases |os|
  {
    if os != [] {
      assert (os + [o])[1..] == os[1..] + [o];
      FirstFailureSnoc(os[1..], o);
    }
  }

  /** Whatever the completion order, the first failure received is a pass
      exactly when every run passed, and otherwise is the failure of one of
      the runs. */
  lemma FirstFailureInAnyOrder(os: seq<Outcome>, order: seq<nat>)
    requires IsCompletionOrder(order, |os|)
    ensures FirstFailure(Permute(os, order)) == Pass <==> forall i | 0 <= i < |os| :: os[i] == Pass
    ensures FirstFailure(Permute(os, order)).Fail? ==>
      exists i | 0 <= i < |os| :: os[i] == FirstFailure(Permute(os, order))
  {
    var ps := Permute(os, order);
    FirstFailureMeaning(ps);
    if FirstFailure(ps) == Pass {
      forall i | 0 <= i < |os|
        ensures os[i] == Pass
      {
        assert i in order;
        var k :| 0 <= k < |order| && order[k] == i;
        assert ps[k] == os[i];
      }
    } else {
      var k :| 0 <= k < |ps| && ps[k] == FirstFailure(ps) && forall i | 0 <= i < k :: ps[i] == Pass;
      assert os[order[k]] == FirstFailure(ps);
    }
  }

  /** Waits for every run and returns the first error received, the runs
      completing in an order the scheduler picks. */
  method Gather(os: seq<Outcome>) returns (r: Outcome, order: seq<nat>)
    ensures IsCompletionOrder(order, |os|)
    ensures r == FirstFailure(Permute(os, order))
    ensures r == Pass <==> forall i | 0 <= i < |os| :: os[i] == Pass
    ensures r.Fail? ==> exists i | 0 <= i < |os| :: os[i] == r
  {
    var pending := Indices(|os|);
    order := [];
    r := Pass;
    while pending != {}
      invariant pending <= Indices(|os|)
      invariant forall k | 0 <= k < |order| :: order[k] < |os| && order[k] !in pending
      invariant forall i | 0 <= i < |os| :: i in order || i in pending
      invariant |order| + |pending| == |os|
      invariant r == FirstFailure(Permute(os, order))
      decreases |pending|
    {
      var i :| i in pending;
      FirstFailureSnoc(Permute(os, order), os[i]);
      assert Permute(os, order + [i]) == Permute(os, order) + [os[i]];
      if r == Pass {
        r := os[i];
      }
      order := order + [i];
      pending := pending - {i};
    }
    FirstFailureInAnyOrder(os, order);
  }
}
