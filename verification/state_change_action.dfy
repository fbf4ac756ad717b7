/** The moderation state-change action: one instance per entity type, bound
    to a `{workflow, state}` configuration. `Access` decides whether an
    account may apply it to an object; `StateChange.Execute` moves the
    entity to the configured state. */
module StateChangeAction {
  import opened Common
  import opened AccessResult
  import opened Workflows
  import opened Entities

  /** The action's configuration; both values are NULL until configured. */
  datatype Config = Config(workflow: Option<string>, state: Option<string>)

  /** `defaultConfiguration()`: neither a workflow nor a state. */
  function DefaultConfiguration(): (c: Config)
    ensures c.workflow.None? && c.state.None?
  {
    Config(None, None)
  }

  /** What `access()` is asked about: nothing, an object that is not a
      content entity, or a content entity. */
  datatype Subject = NoObject | OtherObject | ContentObject(entity: EntityValue)

  datatype Account = Account(id: int, permissions: set<string>)

  /** The context handed to the alter hook next to the result. */
  datatype AlterData = AlterData(
    entity: EntityValue,    // the latest revision
    account: Account,
    workflow: Workflow,
    fromState: string,
    toState: Option<string>)

  /** The collaborators `access()` consults. */
  datatype Site = Site(
    workflowFor: EntityValue -> Option<Workflow>,          // the moderation information service
    latest: map<EntityKey, EntityValue>,                     // latest revision of each entity
    updateAccess: (EntityValue, Account) -> Decision,        // the entity's own 'update' access
    alter: (Decision, AlterData) -> Decision)                // every cma_state_change_access alter hook, in turn

  /** What makes the access check or the execution stop with an error
      instead of a decision. */
  datatype Fault =
    | LatestRevisionMissing               // no latest revision could be loaded
    | UnknownState(stateId: Option<string>)  // the latest revision's state is not in the workflow

  datatype Outcome = Decided(decision: Decision) | Failed(fault: Fault)

  const TransitionNotPossible := "It is not possible to apply selected transition"

  /** The (untranslated) access error message for an entity: the reason,
      then the entity's label, then a full stop. */
  function AccessErrorMessage(reason: string, entity: EntityValue): (m: string)
    ensures |m| == |reason| + |entity.entityLabel| + 6
    ensures m[..|reason|] == reason && m[|reason|..|reason| + 5] == " for "
    ensures m[|reason| + 5..|m| - 1] == entity.entityLabel && m[|m| - 1] == '.'
  {
    reason + " for " + entity.entityLabel + "."
  }

  /** The latest revision's moderation state is a state of the workflow. */
  predicate KnownState(wf: Workflow, latest: EntityValue)
  {
    latest.moderationState.Some? && latest.moderationState.value in wf.states
  }

  /** The subject is a content entity under the configured workflow. */
  predicate Applicable(subject: Subject, config: Config, site: Site)
  {
    subject.ContentObject? && site.workflowFor(subject.entity).Some? &&
    Some(site.workflowFor(subject.entity).value.id) == config.workflow
  }

  /** The subject passes every guard and its latest revision is in a state
      of the workflow: only then is the alter hook invoked. */
  predicate ReachesAlter(subject: Subject, config: Config, site: Site)
  {
    Applicable(subject, config, site) &&
    subject.entity.Key() in site.latest &&
    KnownState(site.workflowFor(subject.entity).value, site.latest[subject.entity.Key()])
  }

  /** The decision for the transition from the latest revision's state to
      the configured state, before any hook sees it. */
  function TransitionDecision(wf: Workflow, latest: EntityValue, from: string, to: Option<string>,
                              account: Account, update: Decision): (d: Decision)
    ensures !CanTransitionTo(wf, from, to) ==>
              d.IsForbidden() && d.reason == AccessErrorMessage(TransitionNotPossible, latest)
    ensures CanTransitionTo(wf, from, to) ==>
              (d.IsAllowed() <==>
                 TransitionPermission(wf.id, TransitionTo(wf, from, to).id) in account.permissions &&
                 update.IsAllowed())
    ensures CanTransitionTo(wf, from, to) ==> (d.IsForbidden() <==> update.IsForbidden())
  {
    if CanTransitionTo(wf, from, to) then
      AndIf(AllowedIfHasPermission(account.permissions, TransitionPermission(wf.id, TransitionTo(wf, from, to).id)),
            update)
    else
      Forbidden(AccessErrorMessage(TransitionNotPossible, latest))
  }

  /** The pre-hook decision of a subject that reaches the alter hook: it is
      taken on the latest revision, from that revision's state, with that
      revision's own `update` access. */
  function PreAlter(subject: Subject, config: Config, site: Site, account: Account): (d: Decision)
    requires ReachesAlter(subject, config, site)
    ensures var wf := site.workflowFor(subject.entity).value;
            var latest := site.latest[subject.entity.Key()];
            var from := latest.moderationState.value;
            (!CanTransitionTo(wf, from, config.state) ==> d.IsForbidden()) &&
            (d.IsAllowed() <==>
               CanTransitionTo(wf, from, config.state) &&
               TransitionPermission(wf.id, TransitionTo(wf, from, config.state).id) in account.permissions &&
               site.updateAccess(latest, account).IsAllowed())
  {
    var wf := site.workflowFor(subject.entity).value;
    var latest := site.latest[subject.entity.Key()];
    TransitionDecision(wf, latest, latest.moderationState.value, config.state, account,
                       site.updateAccess(latest, account))
  }

  /** The context the alter hook receives for a subject that reaches it:
      the latest revision rather than the object asked about, the entity's
      workflow, the latest revision's state and the configured state. */
  function AlterContext(subject: Subject, config: Config, site: Site, account: Account): (data: AlterData)
    requires ReachesAlter(subject, config, site)
    ensures data.entity == site.latest[subject.entity.Key()]
    ensures data.workflow == site.workflowFor(subject.entity).value && Some(data.workflow.id) == config.workflow
    ensures Some(data.fromState) == data.entity.moderationState && data.fromState in data.workflow.states
    ensures data.toState == config.state && data.account == account
  {
    var latest := site.latest[subject.entity.Key()];
    AlterData(latest, account, site.workflowFor(subject.entity).value, latest.moderationState.value, config.state)
  }

  /** `access($object, $account, TRUE)`: the guard chain of the action. */
  function Access(subject: Subject, config: Config, site: Site, account: Account): (r: Outcome)
    // A missing object or one that is not a content entity is forbidden.
    ensures !subject.ContentObject? ==> r == Decided(Forbidden(""))
    // An entity without a workflow is forbidden.
    ensures subject.ContentObject? && site.workflowFor(subject.entity).None? ==>
              r == Decided(Forbidden(AccessErrorMessage(TransitionNotPossible, subject.entity)))
    // An entity under another workflow is forbidden, and depends on that workflow.
    ensures subject.ContentObject? && site.workflowFor(subject.entity).Some? && !Applicable(subject, config, site) ==>
              r.Decided? && r.decision.IsForbidden() &&
              r.decision.dependencies == {WorkflowDependency(site.workflowFor(subject.entity).value.id)}
    // Only an applicable entity whose latest revision is missing or in an unknown state fails.
    ensures r.Failed? <==> Applicable(subject, config, site) && !ReachesAlter(subject, config, site)
    ensures r.Failed? ==>
              (subject.entity.Key() !in site.latest <==> r.fault == LatestRevisionMissing)
    // Past the guards, the result is whatever the hook leaves, plus the workflow dependency.
    ensures ReachesAlter(subject, config, site) ==>
              var altered := site.alter(PreAlter(subject, config, site, account), AlterContext(subject, config, site, account));
              r.Decided? && r.decision.kind == altered.kind && r.decision.reason == altered.reason &&
              r.decision.dependencies == altered.dependencies + {WorkflowDependency(config.workflow.value)}
    // Nothing that stops early is ever allowed.
    ensures r.Decided? && r.decision.IsAllowed() ==> ReachesAlter(subject, config, site)
  {
    match subject
    case NoObject => Decided(Forbidden(""))
    case OtherObject => Decided(Forbidden(""))
    case ContentObject(e) =>
      match site.workflowFor(e)
      case None => Decided(Forbidden(AccessErrorMessage(TransitionNotPossible, e)))
      case Some(wf) =>
        if Some(wf.id) != config.workflow then
          Decided(AddCacheableDependency(Forbidden(AccessErrorMessage(TransitionNotPossible, e)), WorkflowDependency(wf.id)))
        else if e.Key() !in site.latest then
          Failed(LatestRevisionMissing)
        else
          var latest := site.latest[e.Key()];
          if !KnownState(wf, latest) then
            Failed(UnknownState(latest.moderationState))
          else
            var from := latest.moderationState.value;
            var pre := TransitionDecision(wf, latest, from, config.state, account, site.updateAccess(latest, account));
            var data := AlterData(latest, account, wf, from, config.state);
            Decided(AddCacheableDependency(site.alter(pre, data), WorkflowDependency(wf.id)))
  }

  /** The hook that leaves every result as it is: a site without any
      implementation of the alter hook. */
  function NoAlter(d: Decision, data: AlterData): Decision
  {
    d
  }

  /** Without alter hooks, access is allowed exactly when the entity is
      under the configured workflow, a transition leads from its latest
      revision's state to the configured state, the account holds that
      transition's permission AND the entity allows 'update'. */
  lemma {:induction false} AccessWithoutAlterHooks(subject: Subject, config: Config, site: Site, account: Account)
    requires site.alter == NoAlter
    ensures var r := Access(subject, config, site, account);
      (r.Decided? && r.decision.IsAllowed()) <==>
        ReachesAlter(subject, config, site) &&
        var wf := site.workflowFor(subject.entity).value;
        var latest := site.latest[subject.entity.Key()];
        CanTransitionTo(wf, latest.moderationState.value, config.state) &&
        TransitionPermission(wf.id, TransitionTo(wf, latest.moderationState.value, config.state).id) in account.permissions &&
        site.updateAccess(latest, account).IsAllowed()
  {
    if ReachesAlter(subject, config, site) {
      var pre := PreAlter(subject, config, site, account);
      assert site.alter(pre, AlterContext(subject, config, site, account)) == pre;
    }
  }

  /** A result decided before the end of the guard chain does not depend
      on the alter hooks. */
  lemma EarlyExitsBypassAlter(subject: Subject, config: Config, site: Site, account: Account,
                              hook: (Decision, AlterData) -> Decision)
    requires !ReachesAlter(subject, config, site)
    ensures Access(subject, config, site.(alter := hook), account) == Access(subject, config, site, account)
  {
  }

  /** With the default configuration no workflow matches, so every object
      is forbidden and no hook is consulted. */
  lemma DefaultConfigurationForbidsAll(subject: Subject, site: Site, account: Account)
    ensures var r := Access(subject, DefaultConfiguration(), site, account);
      r.Decided? && r.decision.IsForbidden()
  {
  }

  /** A configured target state that the (well-formed) workflow no longer
      has, or no target state at all, is forbidden before any hook runs. */
  lemma {:induction false} ConfigurationDriftIsForbidden(subject: Subject, config: Config, site: Site, account: Account)
    requires ReachesAlter(subject, config, site)
    requires WellFormed(site.workflowFor(subject.entity).value)
    requires config.state.None? || config.state.value !in site.workflowFor(subject.entity).value.states
    ensures PreAlter(subject, config, site, account).IsForbidden()
  {
    var wf := site.workflowFor(subject.entity).value;
    var from := site.latest[subject.entity.Key()].moderationState.value;
    if config.state.Some? {
      NoTransitionToUnknownState(wf, from, config.state.value);
    }
  }

  /** DependencyTrait's `addDependency($type, $name)`, with each type's
      names kept as a set. */
  function AddDependency(deps: map<string, set<string>>, kind: string, name: string): (r: map<string, set<string>>)
    ensures r.Keys == deps.Keys + {kind}
    ensures r[kind] == (if kind in deps then deps[kind] else {}) + {name}
    ensures forall k :: k in deps && k != kind ==> r[k] == deps[k]
  {
    deps[kind := (if kind in deps then deps[kind] else {}) + {name}]
  }

  /** The name of a workflow's configuration object. */
  function WorkflowConfigName(workflowId: string): string
  {
    "workflows.workflow." + workflowId
  }

  /** The ids of the workflows that apply to `entityTypeId`, in order: the
      options of the configuration form's workflow select. */
  function WorkflowOptions(workflows: seq<Workflow>, entityTypeId: string): (ids: seq<string>)
    ensures forall id :: id in ids <==> exists w :: w in workflows && w.id == id && entityTypeId in w.entityTypes
    ensures ids != [] ==>
              exists k :: (0 <= k < |workflows| && ids[0] == workflows[k].id &&
                           entityTypeId in workflows[k].entityTypes &&
                           forall j :: 0 <= j < k ==> entityTypeId !in workflows[j].entityTypes)
    ensures ids == [] ==> forall w :: w in workflows ==> entityTypeId !in w.entityTypes
  {
    if workflows == [] then []
    else
      var rest := WorkflowOptions(workflows[1..], entityTypeId);
      if entityTypeId in workflows[0].entityTypes then
        [workflows[0].id] + rest
      else
        assert rest != [] ==>
          exists k :: (0 <= k < |workflows| && rest[0] == workflows[k].id &&
                       entityTypeId in workflows[k].entityTypes &&
                       forall j :: 0 <= j < k ==> entityTypeId !in workflows[j].entityTypes) by {
          if rest != [] {
            var k :| 0 <= k < |workflows[1..]| && rest[0] == workflows[1..][k].id &&
              entityTypeId in workflows[1..][k].entityTypes &&
              forall j :: 0 <= j < k ==> entityTypeId !in workflows[1..][j].entityTypes;
            assert forall j :: 0 <= j < k + 1 ==> entityTypeId !in workflows[j].entityTypes by {
              forall j | 0 <= j < k + 1 ensures entityTypeId !in workflows[j].entityTypes {
                if j > 0 { assert workflows[j] == workflows[1..][j - 1]; }
              }
            }
          }
        }
        rest
  }

  /** The default of the workflow select: the submitted form value if it is
      not empty, else the configured workflow if that is not empty, else the
      first option (NULL when there are no options). */
  function DefaultWorkflow(formValue: Option<string>, configured: Option<string>, options: seq<string>): (r: Option<string>)
    ensures !IsEmpty(formValue) ==> r == formValue
    ensures IsEmpty(formValue) && !IsEmpty(configured) ==> r == configured
    ensures IsEmpty(formValue) && IsEmpty(configured) ==>
              (r.Some? <==> options != []) && (r.Some? ==> r.value == options[0] && r.value in options)
  {
    if !IsEmpty(formValue) then formValue
    else if !IsEmpty(configured) then configured
    else if options == [] then None
    else Some(options[0])
  }

  /** The revision `execute()` saves, or None when the entity type is
      revisionable but no latest revision can be loaded. */
  function ExecutedRevision(entity: EntityValue, latest: map<EntityKey, EntityValue>, state: Option<string>,
                            requestTime: int, userId: int): (r: Option<EntityValue>)
    ensures r.None? <==> entity.revisionable && entity.Key() !in latest
    // The moderation state is always the configured one.
    ensures r.Some? ==> r.value.moderationState == state
    // The changed time is stamped exactly for entities that track it.
    ensures r.Some? ==>
              r.value.changedTime == (if r.value.tracksChanged then requestTime
                                      else if entity.revisionable then latest[entity.Key()].changedTime
                                      else entity.changedTime)
    // A non-revisionable entity is saved as it was passed, with only those two fields set.
    ensures r.Some? && !entity.revisionable ==>
              r.value.(moderationState := entity.moderationState, changedTime := entity.changedTime) == entity
    // A revisionable entity is saved as a new revision of its latest revision,
    // keeping that revision's default flag; revision metadata is stamped only
    // on entities that keep it; nothing else changes.
    ensures r.Some? && entity.revisionable ==>
              var prior := latest[entity.Key()];
              r.value.isNewRevision && r.value.isDefaultRevision == prior.isDefaultRevision &&
              r.value.revisionCreationTime == (if prior.revisionLog then requestTime else prior.revisionCreationTime) &&
              r.value.revisionUser == (if prior.revisionLog then userId else prior.revisionUser) &&
              r.value.(moderationState := prior.moderationState, changedTime := prior.changedTime,
                       isNewRevision := prior.isNewRevision, revisionCreationTime := prior.revisionCreationTime,
                       revisionUser := prior.revisionUser) == prior
  {
    if entity.revisionable then
      if entity.Key() !in latest then None
      else
        var prior := latest[entity.Key()];
        var revision := prior.(isNewRevision := true, isDefaultRevision := prior.isDefaultRevision);
        var logged := if revision.revisionLog then revision.(revisionCreationTime := requestTime, revisionUser := userId)
                      else revision;
        Some(Finalized(logged, state, requestTime))
    else
      Some(Finalized(entity, state, requestTime))
  }

  /** The last two steps of `execute()` before saving: the changed time and
      the moderation state. */
  function Finalized(e: EntityValue, state: Option<string>, requestTime: int): EntityValue
  {
    (if e.tracksChanged then e.(changedTime := requestTime) else e).(moderationState := state)
  }

  /** When access was granted before any hook, the revision that execution
      saves (against the same latest revisions) is the checked latest
      revision moved along a transition whose permission the account holds. */
  lemma {:induction false} ExecuteCompletesCheckedTransition(subject: Subject, config: Config, site: Site, account: Account,
                                                              requestTime: int, userId: int)
    requires ReachesAlter(subject, config, site)
    requires PreAlter(subject, config, site, account).IsAllowed()
    ensures var rec := ExecutedRevision(subject.entity, site.latest, config.state, requestTime, userId);
      rec.Some? &&
      var wf := site.workflowFor(subject.entity).value;
      exists t :: t in wf.transitions && Connects(t, site.latest[subject.entity.Key()].moderationState.value, rec.value.moderationState) &&
        TransitionPermission(wf.id, t.id) in account.permissions
  {
    var wf := site.workflowFor(subject.entity).value;
    var latest := site.latest[subject.entity.Key()];
    var from := latest.moderationState.value;
    var t := TransitionTo(wf, from, config.state);
    var rec := ExecutedRevision(subject.entity, site.latest, config.state, requestTime, userId);
    assert t in wf.transitions && Connects(t, from, rec.value.moderationState);
  }

  /** An action instance: its configuration and its calculated dependencies. */
  class StateChange {
    var configuration: Config
    var dependencies: map<string, set<string>>

    constructor (configuration: Config)
      ensures this.configuration == configuration && dependencies == map[]
    {
      this.configuration := configuration;
      dependencies := map[];
    }

    /** `submitConfigurationForm()`: store the submitted workflow and state. */
    method SubmitConfigurationForm(formWorkflow: Option<string>, formState: Option<string>)
      modifies this
      ensures configuration == Config(formWorkflow, formState)
      ensures dependencies == old(dependencies)
    {
      configuration := Config(formWorkflow, formState);
    }

    /** `calculateDependencies()`: a configured workflow becomes a config
        dependency; nothing is added while no workflow is configured. */
    method CalculateDependencies() returns (deps: map<string, set<string>>)
      modifies this
      ensures configuration == old(configuration)
      ensures IsEmpty(configuration.workflow) ==> dependencies == old(dependencies)
      ensures !IsEmpty(configuration.workflow) ==>
                dependencies == AddDependency(old(dependencies), "config", WorkflowConfigName(configuration.workflow.value))
      ensures deps == dependencies
    {
      if !IsEmpty(configuration.workflow) {
        dependencies := AddDependency(dependencies, "config", WorkflowConfigName(configuration.workflow.value));
      }
      deps := dependencies;
    }

    /** `loadLatestRevision()`: the latest revision of the entity, freshly loaded. */
    method LoadLatestRevision(entity: ContentEntity, storage: EntityStorage) returns (e: ContentEntity?)
      ensures var key := EntityKey(entity.entityTypeId, entity.id);
        (e != null <==> key in storage.latest) &&
        (e != null ==> fresh(e) && e.Value() == storage.latest[key])
    {
      e := storage.LoadLatestRevision(EntityKey(entity.entityTypeId, entity.id));
    }

    /** `execute($entity)`: move the entity to the configured state, on a new
        revision of its latest revision when its type is revisionable, and
        save it exactly once, as the last step. */
    method Execute(entity: ContentEntity, storage: EntityStorage, requestTime: int, currentUserId: int)
      returns (fault: Option<Fault>)
      requires storage.Valid()
      modifies storage, entity
      ensures storage.Valid()
      ensures var rec := ExecutedRevision(old(entity.Value()), old(storage.latest), configuration.state,
                                          requestTime, currentUserId);
        (rec.None? ==> fault == Some(LatestRevisionMissing) &&
                       storage.saved == old(storage.saved) && storage.latest == old(storage.latest)) &&
        (rec.Some? ==> fault == None &&
                       storage.saved == old(storage.saved) + [rec.value] &&
                       storage.latest == old(storage.latest)[rec.value.Key() := rec.value] &&
                       rec.value.Key() == entity.Value().Key() &&
                       storage.latest[entity.Value().Key()].moderationState == configuration.state)
      // A revisionable entity object is left alone; any other is updated in place.
      ensures entity.revisionable ==> unchanged(entity)
      ensures !entity.revisionable ==>
                Some(entity.Value()) == ExecutedRevision(old(entity.Value()), old(storage.latest), configuration.state,
                                                         requestTime, currentUserId)
    {
      var e := entity;
      if entity.revisionable {
        var latest := LoadLatestRevision(entity, storage);
        if latest == null {
          return Some(LatestRevisionMissing);
        }
        e := storage.CreateRevision(latest, latest.isDefaultRevision);
        if e.revisionLog {
          e.revisionCreationTime := requestTime;
          e.revisionUser := currentUserId;
        }
      }
      if e.tracksChanged {
        e.changedTime := requestTime;
      }
      e.moderationState := configuration.state;
      storage.Save(e);
      fault := None;
    }
  }
}
