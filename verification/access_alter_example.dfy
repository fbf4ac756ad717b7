/** The documented example of the `cma_state_change_access` alter hook: it
    forbids the action for one particular workflow id and leaves every other
    result alone. */
module AccessAlterExample {
  import opened AccessResult
  import opened Common
  import opened Entities
  import opened StateChangeAction

  const ExampleWorkflowId := "cma_example_action_workflow_test"
  const ExampleReason := "Do use this example as a workflow machine name!"

  /** The example hook as a function, so that a site can be given it. */
  function ExampleAlter(result: Decision, data: AlterData): (r: Decision)
    ensures data.workflow.id == ExampleWorkflowId ==>
              r.IsForbidden() && r.reason == ExampleReason &&
              r.dependencies == {EntityDependency(data.entity.entityTypeId, data.entity.id)}
    ensures data.workflow.id != ExampleWorkflowId ==> r == result
  {
    if data.workflow.id == ExampleWorkflowId then
      AddCacheableDependency(Forbidden(ExampleReason), EntityDependency(data.entity.entityTypeId, data.entity.id))
    else
      result
  }

  /** `hook_cma_state_change_access_alter(&$result, $data)`: replace the
      result with a fresh forbidden one, then make it depend on the entity. */
  method HookCmaStateChangeAccessAlter(result: Decision, data: AlterData) returns (altered: Decision)
    ensures altered == ExampleAlter(result, data)
  {
    altered := result;
    if data.workflow.id == ExampleWorkflowId {
      altered := Forbidden(ExampleReason);
      altered := AddCacheableDependency(altered, EntityDependency(data.entity.entityTypeId, data.entity.id));
    }
  }

  /** On a site with the example hook, an action configured for the example
      workflow is never allowed, whatever the account may do; a decided
      result past the guards carries both the entity and the workflow as
      dependencies. */
  lemma {:induction false} ExampleWorkflowNeverAllowed(subject: Subject, config: Config, site: Site, account: Account)
    requires site.alter == ExampleAlter
    requires config.workflow == Some(ExampleWorkflowId)
    ensures var r := Access(subject, config, site, account);
      !(r.Decided? && r.decision.IsAllowed()) &&
      (ReachesAlter(subject, config, site) ==>
         r.decision.reason == ExampleReason &&
         r.decision.dependencies ==
           var latest := site.latest[subject.entity.Key()];
           {EntityDependency(latest.entityTypeId, latest.id), WorkflowDependency(ExampleWorkflowId)})
  {
    if ReachesAlter(subject, config, site) {
      var data := AlterContext(subject, config, site, account);
      assert data.workflow.id == ExampleWorkflowId;
    }
  }

  /** For any other configured workflow, the example hook changes nothing:
      the result is the one a site without hooks computes. */
  lemma OtherWorkflowsUnaffected(subject: Subject, config: Config, site: Site, account: Account)
    requires site.alter == ExampleAlter
    requires config.workflow != Some(ExampleWorkflowId)
    ensures Access(subject, config, site, account) == Access(subject, config, site.(alter := NoAlter), account)
  {
    if ReachesAlter(subject, config, site) {
      var data := AlterContext(subject, config, site, account);
      assert data.workflow.id != ExampleWorkflowId;
    }
  }
}
