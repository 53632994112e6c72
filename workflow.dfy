/** The two workflow kinds of pkg/workflow/workflow.go. Agents run through a
    `run` parameter, a done context is a predicate on the step about to start,
    and the mixture workflow's event client is replaced by the outcomes of the
    calls whose failure it acts on: creating the client, publishing the start
    event and syncing each result. */
module Workflows {
  import opened Wrappers
  import opened Types
  import opened Strings
  import opened Completions

  /** What running an agent on a task yields. */
  type Run = (AgentRef, string) -> Result<string>

  /** `stringSliceToString`: the parts separated by newlines, with no trailing
      newline. */
  function Join(parts: seq<string>): (s: string)
    ensures parts == [] ==> s == ""
    ensures |parts| == 1 ==> s == parts[0]
    decreases |parts|
  {
    if parts == [] then "" else if |parts| == 1 then parts[0] else parts[0] + "\n" + Join(parts[1..])
  }

  /** Appending a part appends one separator and the part. */
  lemma {:induction false} JoinSnoc(parts: seq<string>, s: string)
    requires parts != []
    ensures Join(parts + [s]) == Join(parts) + "\n" + s
    decreases |parts|
  {
    if |parts| > 1 {
      assert (parts + [s])[1..] == parts[1..] + [s];
      JoinSnoc(parts[1..], s);
    }
  }

  /** The position of the first newline of a string that has one. */
  function FirstNewline(s: string): (i: nat)
    requires '\n' in s
    ensures i < |s| && s[i] == '\n' && '\n' !in s[..i]
  {
    if s[0] == '\n' then 0 else
      assert s[1..][FirstNewline(s[1..])] == '\n';
      assert s[..FirstNewline(s[1..]) + 1] == [s[0]] + s[1..][..FirstNewline(s[1..])];
      FirstNewline(s[1..]) + 1
  }

  /** The lines of a string: the inverse of `Join`. */
  function SplitLines(s: string): (parts: seq<string>)
    ensures |parts| >= 1
    decreases |s|
  {
    if '\n' in s then [s[..FirstNewline(s)]] + SplitLines(s[FirstNewline(s) + 1..]) else [s]
  }

  /** A line with no newline, a newline and a rest split as that line
      followed by the lines of the rest. */
  lemma SplitFirst(p: string, rest: string)
    requires '\n' !in p
    ensures SplitLines(p + "\n" + rest) == [p] + SplitLines(rest)
  {
    var s := p + "\n" + rest;
    assert s[|p|] == '\n';
    var i := FirstNewline(s);
    assert s[..i] == p[..i];
    assert i == |p|;
    assert s[..i] == p;
    assert s[i + 1..] == rest;
  }

  /** Joining lines that hold no newline and splitting the text again gives
      back the lines: no result is lost or merged in the aggregator's input. */
  lemma {:induction false} SplitJoin(parts: seq<string>)
    requires parts != []
    requires forall i | 0 <= i < |parts| :: '\n' !in parts[i]
    ensures SplitLines(Join(parts)) == parts
    decreases |parts|
  {
    if |parts| > 1 {
      var tail := parts[1..];
      assert Join(parts) == parts[0] + "\n" + Join(tail);
      assert forall i | 0 <= i < |tail| :: '\n' !in tail[i] by {
        forall i | 0 <= i < |tail| ensures '\n' !in tail[i] {
          assert tail[i] == parts[i + 1];
        }
      }
      SplitFirst(parts[0], Join(tail));
      SplitJoin(tail);
      assert parts == [parts[0]] + tail;
    }
  }

  /** The agents from position `k` on, each fed the previous one's output;
      `cancelled(k)` means the context is done before step `k`. */
  function Chain(agents: seq<AgentRef>, task: string, k: nat, run: Run, cancelled: nat -> bool, ctxErr: Error): Result<string>
    decreases |agents|
  {
    if agents == [] then Ok(task)
    else if cancelled(k) then Err(ctxErr)
    else match run(agents[0], task)
      case Err(e) => Err(e)
      case Ok(out) => Chain(agents[1..], out, k + 1, run, cancelled, ctxErr)
  }

  /** Running two lists of agents one after the other is running their
      concatenation: the pipeline is the composition of its steps. */
  lemma {:induction false} ChainAppend(xs: seq<AgentRef>, ys: seq<AgentRef>, task: string, k: nat,
                                       run: Run, cancelled: nat -> bool, ctxErr: Error)
    ensures Chain(xs + ys, task, k, run, cancelled, ctxErr) ==
      match Chain(xs, task, k, run, cancelled, ctxErr)
      case Err(e) => Err(e)
      case Ok(t) => Chain(ys, t, k + |xs|, run, cancelled, ctxErr)
    decreases |xs|
  {
    if xs != [] {
      assert (xs + ys)[0] == xs[0];
      assert (xs + ys)[1..] == xs[1..] + ys;
      if !cancelled(k) && run(xs[0], task).Ok? {
        ChainAppend(xs[1..], ys, run(xs[0], task).value, k + 1, run, cancelled, ctxErr);
      }
    } else {
      assert xs + ys == ys;
    }
  }

  /** An error of the pipeline is the context's error or, unwrapped, the
      error of one of its agents. */
  lemma {:induction false} ChainErrorSource(agents: seq<AgentRef>, task: string, k: nat,
                                            run: Run, cancelled: nat -> bool, ctxErr: Error)
    ensures Chain(agents, task, k, run, cancelled, ctxErr).Err? ==>
      var e := Chain(agents, task, k, run, cancelled, ctxErr).error;
      e == ctxErr || exists a, t | a in agents :: run(a, t) == Err(e)
    decreases |agents|
  {
    if agents != [] && !cancelled(k) && run(agents[0], task).Ok? {
      ChainErrorSource(agents[1..], run(agents[0], task).value, k + 1, run, cancelled, ctxErr);
      var r := Chain(agents[1..], run(agents[0], task).value, k + 1, run, cancelled, ctxErr);
      if r.Err? && r.error != ctxErr {
        var a, t :| a in agents[1..] && run(a, t) == Err(r.error);
        assert a in agents;
      }
    }
  }

  /** `SequentialWorkflow.Execute`: "" for no agents, otherwise the last
      agent's output. */
  function Pipeline(agents: seq<AgentRef>, task: string, run: Run, cancelled: nat -> bool, ctxErr: Error): Result<string>
  {
    if agents == [] then Ok("") else Chain(agents, task, 0, run, cancelled, ctxErr)
  }

  /** With a context that stays live, a two-agent pipeline is the second
      agent applied to the first agent's output. */
  lemma PipelineOfTwo(a: AgentRef, b: AgentRef, task: string, run: Run, ctxErr: Error)
    ensures Pipeline([a, b], task, run, _ => false, ctxErr) ==
      match run(a, task)
      case Err(e) => Err(e)
      case Ok(t) => run(b, t)
  {
    ChainAppend([a], [b], task, 0, run, _ => false, ctxErr);
    assert [a, b] == [a] + [b];
    assert Chain([a], task, 0, run, _ => false, ctxErr) == (match run(a, task) case Err(e) => Err(e) case Ok(t) => Ok(t));
    if run(a, task).Ok? {
      assert Chain([b], run(a, task).value, 1, run, _ => false, ctxErr) == (match run(b, run(a, task).value) case Err(e) => Err(e) case Ok(t) => Ok(t));
    }
  }

  class SequentialWorkflow {
    var agents: seq<AgentRef>

    /** `NewSequentialWorkflow`. */
    constructor ()
      ensures agents == []
    {
      agents := [];
    }

    /** `AddAgent`: appends, and never fails. */
    method AddAgent(a: AgentRef) returns (r: Outcome)
      modifies this
      ensures agents == old(agents) + [a] && r == Pass
    {
      agents := agents + [a];
      r := Pass;
    }

    /** `Execute(task)`: each agent's input is the previous agent's output; a
        done context or an agent's error stops the run and is returned as it
        is. `invoked` counts the agents that ran. */
    method Execute(task: string, run: Run, cancelled: nat -> bool, ctxErr: Error) returns (r: Result<string>, invoked: nat)
      ensures r == Pipeline(agents, task, run, cancelled, ctxErr)
      ensures invoked <= |agents| && (r.Ok? ==> invoked == |agents|)
      ensures forall j | 0 <= j < invoked :: !cancelled(j)
    {
      var cur := task;
      var final := "";
      var i := 0;
      invoked := 0;
      while i < |agents|
        invariant 0 <= i <= |agents| && invoked == i
        invariant Chain(agents[i..], cur, i, run, cancelled, ctxErr) == Chain(agents, task, 0, run, cancelled, ctxErr)
        invariant final == if i == |agents| && i > 0 then cur else ""
        invariant forall j | 0 <= j < i :: !cancelled(j)
      {
        assert agents[i..][0] == agents[i] && agents[i..][1..] == agents[i + 1..];
        if cancelled(i) {
          return Err(ctxErr), invoked;
        }
        var out := run(agents[i], cur);
        invoked := i + 1;
        if out.Err? {
          return Err(out.error), invoked;
        }
        cur := out.value;
        if i == |agents| - 1 {
          final := out.value;
        }
        i := i + 1;
      }
      assert agents[i..] == [];
      r := Ok(final);
    }
  }

  /** The state key under which member `i` (counted from 0) stores its result. */
  function SyncKey(i: nat): string
  {
    "agent_" + NatToString(i + 1) + "_result"
  }

  /** What member `i` reports on the error channel, or `Pass`. The error
      counts members from 0, unlike the events and the state key. */
  function MemberOutcome(a: AgentRef, i: nat, task: string, run: Run, sync: (string, string) -> Outcome): Outcome
  {
    match run(a, task)
    case Err(e) => Fail(Wrapped("agent " + NatToString(i) + " failed", e))
    case Ok(out) => if sync(SyncKey(i), out).Fail? then Fail(Wrapped("failed to sync state", sync(SyncKey(i), out).error)) else Pass
  }

  /** The members' reports, in registration order. */
  function MemberOutcomes(agents: seq<AgentRef>, task: string, run: Run, sync: (string, string) -> Outcome): (os: seq<Outcome>)
    ensures |os| == |agents|
    ensures forall i | 0 <= i < |agents| :: os[i] == MemberOutcome(agents[i], i, task, run, sync)
  {
    seq(|agents|, i requires 0 <= i < |agents| => MemberOutcome(agents[i], i, task, run, sync))
  }

  /** The members' results slice: a member's output when it ran and its
      state sync succeeded, "" otherwise (a failing member returns before
      storing its result). */
  function MemberResults(agents: seq<AgentRef>, task: string, run: Run, sync: (string, string) -> Outcome): (rs: seq<string>)
    ensures |rs| == |agents|
    ensures forall i | 0 <= i < |agents| ::
      rs[i] == (if MemberOutcome(agents[i], i, task, run, sync).Pass? then run(agents[i], task).value else "")
  {
    seq(|agents|, i requires 0 <= i < |agents| =>
      if MemberOutcome(agents[i], i, task, run, sync).Pass? then run(agents[i], task).value else "")
  }

  /** The aggregator's task. */
  function AggregateInput(results: seq<string>): string
  {
    "Aggregate the following results:\n" + Join(results)
  }

  /** When no member failed, every entry of the results slice is that
      member's output, and those outputs can be read back from the
      aggregator's task when none holds a newline. */
  lemma AggregateInputCarriesResults(agents: seq<AgentRef>, task: string, run: Run, sync: (string, string) -> Outcome)
    requires forall i | 0 <= i < |agents| :: MemberOutcome(agents[i], i, task, run, sync) == Pass
    ensures forall i | 0 <= i < |agents| :: run(agents[i], task).Ok? && MemberResults(agents, task, run, sync)[i] == run(agents[i], task).value
    ensures agents != [] && (forall i | 0 <= i < |agents| :: '\n' !in run(agents[i], task).value) ==>
      SplitLines(AggregateInput(MemberResults(agents, task, run, sync))[|"Aggregate the following results:\n"|..]) == MemberResults(agents, task, run, sync)
  {
    var rs := MemberResults(agents, task, run, sync);
    var prefix := "Aggregate the following results:\n";
    assert AggregateInput(rs)[|prefix|..] == Join(rs);
    forall i | 0 <= i < |agents|
      ensures run(agents[i], task).Ok?
    {
      assert MemberOutcome(agents[i], i, task, run, sync) == Pass;
    }
    if agents != [] && (forall i | 0 <= i < |agents| :: '\n' !in run(agents[i], task).value) {
      SplitJoin(rs);
    }
  }

  /** The mixture workflow's answer once its members have run, AS WRITTEN:
      the error channel is closed before the `select`, and a receive on a
      closed channel is always ready (it yields the first error sent, or nil
      once drained), so the `default` arm is never taken and the workflow
      returns at the `select`, with an empty result when no member failed. */
  function MixtureResultAsWritten(first: Outcome): Result<string>
  {
    if first.Fail? then Err(first.error) else Ok("")
  }

  /** The intended answer: the first error, or else the aggregator's result. */
  function MixtureResultIntended(first: Outcome, aggregate: Result<string>): Result<string>
  {
    if first.Fail? then Err(first.error) else aggregate
  }

  /** What the aggregator's run on the joined results yields, wrapped as
      `Execute` returns it. */
  function AggregateResult(aggregator: AgentRef, agents: seq<AgentRef>, task: string, run: Run,
                           sync: (string, string) -> Outcome): Result<string>
  {
    var out := run(aggregator, AggregateInput(MemberResults(agents, task, run, sync)));
    if out.Err? then Err(Wrapped("aggregation failed", out.error)) else out
  }

  /** Whatever the completion order, the written and the intended workflow
      agree exactly when some member failed or the aggregation would have
      produced an empty result: on every run where all members succeed, the
      written code discards the aggregation. */
  lemma MixtureAsWrittenDiffers(os: seq<Outcome>, order: seq<nat>, aggregate: Result<string>)
    requires IsCompletionOrder(order, |os|)
    ensures MixtureResultAsWritten(FirstFailure(Permute(os, order)))
              == MixtureResultIntended(FirstFailure(Permute(os, order)), aggregate)
            <==> (exists i | 0 <= i < |os| :: os[i] != Pass) || aggregate == Ok("")
    ensures (forall i | 0 <= i < |os| :: os[i] == Pass) ==>
              MixtureResultAsWritten(FirstFailure(Permute(os, order))) == Ok("")
  {
    FirstFailureInAnyOrder(os, order);
  }

  /** The concrete case: two members that both succeed, with an aggregator
      answering "summary". The written code returns "" and never consults
      the aggregator; the intended code returns "summary". */
  lemma MixtureAsWrittenDropsSummary()
    ensures var first := FirstFailure(Permute([Pass, Pass], [0, 1]));
      MixtureResultAsWritten(first) == Ok("")
      && MixtureResultIntended(first, Ok("summary")) == Ok("summary")
  {
    assert Permute([Pass, Pass], [0, 1]) == [Pass, Pass];
    FirstFailureMeaning([Pass, Pass]);
  }

  class MixtureWorkflow {
    var agents: seq<AgentRef>
    const aggregator: AgentRef

    /** `NewMixtureWorkflow(aggregator)`. */
    constructor (aggregator: AgentRef)
      ensures agents == [] && this.aggregator == aggregator
    {
      agents := [];
      this.aggregator := aggregator;
    }

    /** `AddAgent`: appends, and never fails. */
    method AddAgent(a: AgentRef) returns (r: Outcome)
      modifies this
      ensures agents == old(agents) + [a] && r == Pass
    {
      agents := agents + [a];
      r := Pass;
    }

    /** `Execute(task)` AS WRITTEN: every member runs on the task; the first
        error received is returned, and when there is none the workflow still
        returns at the `select` on the closed error channel, with an empty
        result, before the aggregator is ever run. `dial` and `startPublish`
        are the outcomes of creating the event client and of publishing the
        start event; `order` is the members' completion order. */
    method ExecuteAsWritten(task: string, dial: Outcome, startPublish: Outcome, run: Run, sync: (string, string) -> Outcome)
      returns (r: Result<string>, aggregated: bool, order: seq<nat>)
      ensures dial.Fail? ==> r == Err(Wrapped("failed to create event client", dial.error))
      ensures dial.Pass? && startPublish.Fail? ==>
        r == Err(Wrapped("failed to publish start event", startPublish.error))
      ensures dial.Pass? && startPublish.Pass? ==>
        IsCompletionOrder(order, |agents|)
        && r == MixtureResultAsWritten(FirstFailure(Permute(MemberOutcomes(agents, task, run, sync), order)))
      ensures dial.Pass? && startPublish.Pass? ==>
        (r == Ok("") <==> forall i | 0 <= i < |agents| :: MemberOutcome(agents[i], i, task, run, sync) == Pass)
      ensures !aggregated
    {
      order := [];
      aggregated := false;
      if dial.Fail? {
        return Err(Wrapped("failed to create event client", dial.error)), aggregated, order;
      }
      if startPublish.Fail? {
        return Err(Wrapped("failed to publish start event", startPublish.error)), aggregated, order;
      }
      var os := MemberOutcomes(agents, task, run, sync);
      // the errors sent, in completion order, then nil from the closed channel
      var received;
      received, order := Gather(os);
      if received.Fail? {
        return Err(received.error), aggregated, order;
      }
      r := Ok("");
    }

    /** `Execute(task)` as intended: every member runs on the task; if any
        reports an error, the first error received is returned and the
        aggregator is not run; otherwise the aggregator runs on the joined
        results. `dial` and `startPublish` are the outcomes of creating the
        event client and of publishing the start event; `order` is the
        members' completion order. */
    method Execute(task: string, dial: Outcome, startPublish: Outcome, run: Run, sync: (string, string) -> Outcome)
      returns (r: Result<string>, aggregated: bool, order: seq<nat>)
      ensures dial.Fail? ==> r == Err(Wrapped("failed to create event client", dial.error)) && !aggregated
      ensures dial.Pass? && startPublish.Fail? ==>
        r == Err(Wrapped("failed to publish start event", startPublish.error)) && !aggregated
      ensures dial.Pass? && startPublish.Pass? ==> IsCompletionOrder(order, |agents|)
      ensures aggregated <==>
        (dial.Pass? && startPublish.Pass?
         && forall i | 0 <= i < |agents| :: MemberOutcome(agents[i], i, task, run, sync) == Pass)
      ensures dial.Pass? && startPublish.Pass? && !aggregated ==>
        r.Err? && FirstFailure(Permute(MemberOutcomes(agents, task, run, sync), order)) == Fail(r.error)
        && exists i | 0 <= i < |agents| :: MemberOutcome(agents[i], i, task, run, sync) == Fail(r.error)
      ensures aggregated ==>
        var out := run(aggregator, AggregateInput(MemberResults(agents, task, run, sync)));
        r == (if out.Err? then Err(Wrapped("aggregation failed", out.error)) else out)
      ensures dial.Pass? && startPublish.Pass? ==>
        r == MixtureResultIntended(FirstFailure(Permute(MemberOutcomes(agents, task, run, sync), order)),
                                   AggregateResult(aggregator, agents, task, run, sync))
    {
      order := [];
      aggregated := false;
      if dial.Fail? {
        return Err(Wrapped("failed to create event client", dial.error)), aggregated, order;
      }
      if startPublish.Fail? {
        return Err(Wrapped("failed to publish start event", startPublish.error)), aggregated, order;
      }
      var os := MemberOutcomes(agents, task, run, sync);
      var first;
      first, order := Gather(os);
      if first.Fail? {
        return Err(first.error), aggregated, order;
      }
      var results := MemberResults(agents, task, run, sync);
      aggregated := true;
      var out := run(aggregator, AggregateInput(results));
      if out.Err? {
        return Err(Wrapped("aggregation failed", out.error)), aggregated, order;
      }
      r := out;
    }
  }
}
