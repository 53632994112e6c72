/** The coordinator of pkg/workflow/coordinator.go: a name-to-workflow map and
    the guarded execution of a workflow by name. What a workflow computes is
    supplied as `exec` (modelled for each kind in the workflows module); the
    registration event, whose outcome is ignored, is left out. */
module Coordinators {
  import opened Wrappers
  import opened Workflows

  /** Either kind of workflow the coordinator holds. */
  datatype Workflow = Sequential(sequential: SequentialWorkflow) | Mixture(mixture: MixtureWorkflow)

  class Coordinator {
    var workflows: map<string, Workflow>

    /** `NewCoordinator`, once its agent client exists. */
    constructor ()
      ensures workflows == map[]
    {
      workflows := map[];
    }

    /** `RegisterWorkflow(name, w)`: maps the name to `w`, replacing any
        workflow registered under it. */
    method RegisterWorkflow(name: string, w: Workflow)
      modifies this
      ensures workflows == old(workflows)[name := w]
    {
      workflows := workflows[name := w];
    }

    /** `ExecuteWorkflow(name, task)`. `startPublish` is the outcome of
        publishing the start event; `ran` tells whether the workflow ran. */
    method ExecuteWorkflow(name: string, task: string, startPublish: Outcome, exec: (Workflow, string) -> Result<string>)
      returns (r: Result<string>, ran: bool)
      ensures ran <==> name in workflows && startPublish.Pass?
      ensures name !in workflows ==> r == Err(Error("workflow not found: " + name))
      ensures name in workflows && startPublish.Fail? ==>
        r == Err(Wrapped("failed to publish start event", startPublish.error))
      ensures ran ==>
        var out := exec(workflows[name], task);
        r == (if out.Err? then Err(Wrapped("workflow execution failed", out.error)) else out)
      ensures r.Ok? ==> ran && r == exec(workflows[name], task)
    {
      if name !in workflows {
        return Err(Error("workflow not found: " + name)), false;
      }
      var w := workflows[name];
      if startPublish.Fail? {
        return Err(Wrapped("failed to publish start event", startPublish.error)), false;
      }
      ran := true;
      var out := exec(w, task);
      if out.Err? {
        return Err(Wrapped("workflow execution failed", out.error)), ran;
      }
      r := out;
    }
  }

  /** Registering under a name and then executing it runs the workflow just
      registered, whatever was there before. */
  method RegisterThenExecute(c: Coordinator, name: string, w: Workflow, task: string, exec: (Workflow, string) -> Result<string>)
    returns (r: Result<string>)
    modifies c
    ensures exec(w, task).Ok? ==> r == exec(w, task)
    ensures exec(w, task).Err? ==> r == Err(Wrapped("workflow execution failed", exec(w, task).error))
  {
    c.RegisterWorkflow(name, w);
    var ran;
    r, ran := c.ExecuteWorkflow(name, task, Pass, exec);
  }
}
