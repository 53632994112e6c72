/** The language-model agent of pkg/agent/base_agent.go. The provider's
    `Embed` and `Complete`, and the memory's `Query` and `Store`, are supplied
    as functions; the clock reading that names a stored interaction is a
    parameter. */
module LlmAgents {
  import opened Wrappers
  import opened Types
  import opened Strings
  import opened ToolRegistries

  datatype BaseAgentConfig = BaseAgentConfig(name: string, description: string)

  /** How many remembered vectors `Execute` asks the memory for. */
  const MemoryDepth: int := 5

  /** The context line of one remembered vector: its question and answer when
      both are strings, and nothing otherwise. */
  function Entry(v: Vector): string
  {
    if "input" in v.metadata && v.metadata["input"].Str? && "output" in v.metadata && v.metadata["output"].Str?
    then "Q: " + v.metadata["input"].s + "\nA: " + v.metadata["output"].s + "\n\n"
    else ""
  }

  /** Strings joined with nothing between them. */
  function Concat(ss: seq<string>): string
    decreases |ss|
  {
    if ss == [] then "" else Concat(ss[..|ss| - 1]) + ss[|ss| - 1]
  }

  lemma {:induction false} ConcatAppend(xs: seq<string>, ys: seq<string>)
    ensures Concat(xs + ys) == Concat(xs) + Concat(ys)
    decreases |ys|
  {
    if ys == [] {
      assert xs + ys == xs;
    } else {
      var zs := xs + ys;
      var init := ys[..|ys| - 1];
      assert zs[..|zs| - 1] == xs + init;
      assert zs[|zs| - 1] == ys[|ys| - 1];
      ConcatAppend(xs, init);
    }
  }

  /** The entries of the vectors, in order. */
  function Entries(vs: seq<Vector>): (es: seq<string>)
    ensures |es| == |vs| && forall i | 0 <= i < |vs| :: es[i] == Entry(vs[i])
  {
    seq(|vs|, i requires 0 <= i < |vs| => Entry(vs[i]))
  }

  /** `buildContext`: the entries of the vectors, in order. */
  function BuildContext(vs: seq<Vector>): string
  {
    Concat(Entries(vs))
  }

  /** The context of two runs of vectors is the two contexts one after the
      other: each vector contributes its entry independently of the others. */
  lemma BuildContextAppend(xs: seq<Vector>, ys: seq<Vector>)
    ensures BuildContext(xs + ys) == BuildContext(xs) + BuildContext(ys)
  {
    assert Entries(xs + ys) == Entries(xs) + Entries(ys);
    ConcatAppend(Entries(xs), Entries(ys));
  }

  /** A vector whose metadata lacks a string question or answer adds nothing
      to the context, wherever it stands among the others. */
  lemma NonTextAddsNothing(xs: seq<Vector>, v: Vector, ys: seq<Vector>)
    requires !("input" in v.metadata && v.metadata["input"].Str?) || !("output" in v.metadata && v.metadata["output"].Str?)
    ensures BuildContext(xs + [v] + ys) == BuildContext(xs) + BuildContext(ys)
  {
    assert Entry(v) == "";
    assert Entries([v]) == [Entry(v)];
    assert [Entry(v)][..0] == [];
    assert BuildContext([v]) == Concat([]) + Entry(v) == "";
    BuildContextAppend(xs, [v]);
    BuildContextAppend(xs + [v], ys);
  }

  /** The prompt sent to the provider. */
  function Prompt(context: string, input: string): string
  {
    "Context:\n" + context + "\n\nInput: " + input
  }

  /** The vector `Execute` stores for an interaction. */
  function InteractionVector(clock: nat, embedding: seq<real>, input: string, output: string): Vector
  {
    Vector("interaction_" + NatToString(clock), embedding, map["input" := Str(input), "output" := Str(output)])
  }

  /** A stored interaction comes back, in the context of a later call, as its
      question and answer. */
  lemma InteractionRoundTrip(clock: nat, embedding: seq<real>, input: string, output: string)
    ensures BuildContext([InteractionVector(clock, embedding, input, output)]) == "Q: " + input + "\nA: " + output + "\n\n"
  {
    var v := InteractionVector(clock, embedding, input, output);
    assert "input" != "output" by { assert "input"[0] != "output"[0]; }
    assert v.metadata["input"] == Str(input) && v.metadata["output"] == Str(output);
    assert Entry(v) == "Q: " + input + "\nA: " + output + "\n\n";
    assert Entries([v]) == [Entry(v)];
    assert [Entry(v)][..0] == [];
    assert Concat([Entry(v)]) == Concat([]) + Entry(v);
    assert Concat([]) + Entry(v) == Entry(v);
  }

  /** The external calls one `Execute` made. */
  datatype Trace = Trace(queried: bool, prompt: Option<string>, stored: Option<Vector>)

  class BaseAgent {
    const config: BaseAgentConfig
    const tools: ToolRegistry

    /** `NewBaseAgent(config)`, with the configuration's registry. */
    constructor (config: BaseAgentConfig, registry: ToolRegistry)
      ensures this.config == config && tools == registry
    {
      this.config := config;
      tools := registry;
    }

    /** `Execute(input)`: embed the input, fetch up to five remembered
        vectors, prompt the provider with their context, store the interaction
        and return the completion. A failed store does not fail the call. */
    method Execute(input: string, clock: nat, embed: string -> Result<seq<real>>,
                   query: (Vector, int) -> Result<seq<Vector>>, complete: string -> Result<string>,
                   store: seq<Vector> -> Outcome)
      returns (r: Result<string>, trace: Trace)
      ensures embed(input).Err? ==>
        r == Err(Wrapped("failed to create embedding", embed(input).error)) && trace == Trace(false, None, None)
      ensures embed(input).Ok? ==>
        var q := query(Vector("", embed(input).value, map[]), MemoryDepth);
        trace.queried
        && (q.Err? ==> r == Err(Wrapped("failed to query memory", q.error)) && trace == Trace(true, None, None))
        && (q.Ok? ==>
              var prompt := Prompt(BuildContext(q.value), input);
              trace.prompt == Some(prompt)
              && (complete(prompt).Err? ==>
                    r == Err(Wrapped("failed to generate completion", complete(prompt).error)) && trace.stored == None)
              && (complete(prompt).Ok? ==>
                    r == complete(prompt)
                    && trace.stored == Some(InteractionVector(clock, embed(input).value, input, complete(prompt).value))))
    {
      var embedding := embed(input);
      if embedding.Err? {
        return Err(Wrapped("failed to create embedding", embedding.error)), Trace(false, None, None);
      }
      var vectors := query(Vector("", embedding.value, map[]), MemoryDepth);
      if vectors.Err? {
        return Err(Wrapped("failed to query memory", vectors.error)), Trace(true, None, None);
      }
      var context := BuildContext(vectors.value);
      var prompt := Prompt(context, input);
      var completion := complete(prompt);
      if completion.Err? {
        return Err(Wrapped("failed to generate completion", completion.error)), Trace(true, Some(prompt), None);
      }
      var v := InteractionVector(clock, embedding.value, input, completion.value);
      var _ := store([v]);
      return Ok(completion.value), Trace(true, Some(prompt), Some(v));
    }

    /** `AddTool(t)`: registers the tool under its description, with no
        validator. */
    method AddTool(t: Tool) returns (r: Outcome)
      requires tools.Valid()
      modifies tools
      ensures tools.Valid()
      ensures t.description in old(tools.tools) ==>
        r == Fail(Error("tool already registered: " + t.description)) && tools.tools == old(tools.tools)
      ensures t.description !in old(tools.tools) ==>
        r == Pass && tools.tools == old(tools.tools)[t.description := t]
      ensures tools.validators == old(tools.validators)
    {
      r := tools.RegisterTool(t.description, t, None);
    }

    /** `GetCapabilities`: the registry's capabilities, one per tool. */
    method GetCapabilities() returns (caps: seq<Capability>)
      ensures |caps| == |tools.tools|
      ensures forall i | 0 <= i < |caps| :: caps[i].name in tools.tools && caps[i].description == tools.tools[caps[i].name].description
      ensures forall name | name in tools.tools :: exists i | 0 <= i < |caps| :: caps[i].name == name
    {
      caps := tools.DiscoverCapabilities();
    }
  }
}
