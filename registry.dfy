/** The tool registry of pkg/tools/registry.go. Inputs and outputs are
    strings; a validator is identified by a `Validator` value and applied
    through `validate`, and a tool's `Execute` is supplied as `execute`. */
module ToolRegistries {
  import opened Wrappers
  import opened Types

  datatype Validator = Validator(id: nat)

  class ToolRegistry {
    var tools: map<string, Tool>
    var validators: map<string, Validator>

    /** A validator is only ever stored alongside its tool. */
    ghost predicate Valid()
      reads this
    {
      validators.Keys <= tools.Keys
    }

    /** `NewToolRegistry`. */
    constructor ()
      ensures tools == map[] && validators == map[] && Valid()
    {
      tools := map[];
      validators := map[];
    }

    /** `RegisterTool(name, tool, validator)`: refused for a taken name;
        otherwise the tool is stored, and the validator too if one is given. */
    method RegisterTool(name: string, tool: Tool, validator: Option<Validator>) returns (r: Outcome)
      requires Valid()
      modifies this
      ensures Valid()
      ensures name in old(tools) ==>
        r == Fail(Error("tool already registered: " + name)) && tools == old(tools) && validators == old(validators)
      ensures name !in old(tools) ==>
        r == Pass && tools == old(tools)[name := tool]
        && validators == (if validator.Some? then old(validators)[name := validator.value] else old(validators))
    {
      if name in tools {
        return Fail(Error("tool already registered: " + name));
      }
      tools := tools[name := tool];
      if validator.Some? {
        validators := validators[name := validator.value];
      }
      r := Pass;
    }

    /** `ExecuteTool(name, input)`: the validator, if any, runs first and its
        error stops the call; otherwise the tool's own result is returned.
        `executed` tells whether the tool ran. */
    method ExecuteTool(name: string, input: string, validate: (Validator, string) -> Outcome,
                       execute: (Tool, string) -> Result<string>) returns (r: Result<string>, executed: bool)
      requires Valid()
      ensures executed <==> name in tools && (name !in validators || validate(validators[name], input).Pass?)
      ensures name !in tools ==> r == Err(Error("tool not found: " + name))
      ensures name in validators && validate(validators[name], input).Fail? ==>
        r == Err(Wrapped("input validation failed", validate(validators[name], input).error))
      ensures executed ==> r == execute(tools[name], input)
    {
      if name !in tools {
        return Err(Error("tool not found: " + name)), false;
      }
      var tool := tools[name];
      if name in validators {
        var v := validate(validators[name], input);
        if v.Fail? {
          return Err(Wrapped("input validation failed", v.error)), false;
        }
      }
      r := execute(tool, input);
      executed := true;
    }

    /** `DiscoverCapabilities`: one capability per registered tool, named by
        its registration key and carrying its description, in map order. */
    method DiscoverCapabilities() returns (caps: seq<Capability>)
      ensures |caps| == |tools|
      ensures forall i | 0 <= i < |caps| :: caps[i].name in tools && caps[i].description == tools[caps[i].name].description
      ensures forall name | name in tools :: exists i | 0 <= i < |caps| :: caps[i].name == name
      ensures forall i, j | 0 <= i < j < |caps| :: caps[i].name != caps[j].name
    {
      var pending := tools.Keys;
      caps := [];
      while pending != {}
        invariant pending <= tools.Keys
        invariant |caps| + |pending| == |tools|
        invariant forall i | 0 <= i < |caps| :: caps[i].name in tools.Keys - pending
        invariant forall i | 0 <= i < |caps| :: caps[i].description == tools[caps[i].name].description
        invariant forall name | name in tools.Keys - pending :: exists i | 0 <= i < |caps| :: caps[i].name == name
        invariant forall i, j | 0 <= i < j < |caps| :: caps[i].name != caps[j].name
        decreases |pending|
      {
        var name :| name in pending;
        ghost var prev, prevPending := caps, pending;
        caps := caps + [Capability(name, tools[name].description)];
        pending := pending - {name};
        forall n | n in tools.Keys - pending
          ensures exists i | 0 <= i < |caps| :: caps[i].name == n
        {
          if n == name {
            assert caps[|caps| - 1].name == n;
          } else {
            assert n in tools.Keys - prevPending;
            var i :| 0 <= i < |prev| && prev[i].name == n;
            assert caps[i] == prev[i];
          }
        }
      }
      assert tools.Keys - pending == tools.Keys;
    }
  }
}
