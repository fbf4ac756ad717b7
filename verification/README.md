# Content moderation actions: state-change action, deriver and access hook

A Dafny model of the bulk "change moderation state" action of the
`content_moderation_actions` Drupal module. The action is configured with a
`{workflow, state}` pair. For each entity it is applied to, it first decides
access by a chain of guards. It then moves the entity to the configured state,
on a new revision of its latest revision. A deriver declares one such action
per entity type that a content-moderation workflow applies to. The module also
documents an alter hook that can override the access result, with an example
implementation.

Modules (one file each):

- `Common`: `Option` for PHP values that may be NULL, and PHP's `empty()` on strings.
- `AccessResult`: the access-result values the guard chain builds. A decision
  is allowed, neutral or forbidden. It carries a reason and its cacheable
  dependencies. The module also has `forbidden`, `allowedIfHasPermission`,
  `andIf` and `addCacheableDependency`.
- `Workflows`: a workflow's states, its ordered transitions and its entity types.
  It also has the transition lookup behind `canTransitionTo` / `getTransitionTo`,
  and the transition permission name.
- `Entities`: an entity revision as a value (`EntityValue`) and as an object
  updated in place (`ContentEntity`). Also the storage (`EntityStorage`): the
  latest revision of each entity, plus a log of every save.
- `StateChangeAction`: `Access` (the guard chain), the default configuration, and
  the configuration-form choices. Also the `StateChange` class with `Execute`,
  `CalculateDependencies`, `SubmitConfigurationForm` and `LoadLatestRevision`.
- `StateChangeDeriver`: PHP's key-wise array union, the entity-type collection,
  the per-entity-type derivative definitions, and the `Deriver` class.
- `AccessAlterExample`: the documented example implementation of the alter hook.

Inputs that are services are abstract parameters:
- the moderation information service (`Site.workflowFor`, `Site.latest`, the storage);
- the entity's own `update` access (`Site.updateAccess`);
- every implementation of the alter hook, applied in turn (`Site.alter`);
- the request time and the current user's id;
- the entity type manager (`typeInfo`);
- the list of content-moderation workflows.

Two behaviours of the code are modelled as errors rather than decisions:
- If the latest revision's moderation state is not a state of the workflow,
  `getState()` throws. `Access` yields `Failed(UnknownState(..))`.
- If no latest revision can be loaded, `Access` and `Execute` yield
  `LatestRevisionMissing`.

A configured target state that no longer exists is not an error: no transition
leads to it, so access is forbidden.

## Model

| member | source | states |
|---|---|---|
| AccessResult.Forbidden | src/Plugin/Action/StateChange.php:278 | `forbidden($reason)` is forbidden, never allowed, carries exactly the given reason and starts with no dependencies |
| AccessResult.AddCacheableDependency | src/Plugin/Action/StateChange.php:318 | adding a dependency keeps the kind and the reason and adds exactly that dependency |
| AccessResult.AllowedIfHasPermission | src/Plugin/Action/StateChange.php:299 | allowed iff the account holds the permission; never forbidden; varies by the account's permissions |
| AccessResult.AndIf | src/Plugin/Action/StateChange.php:299-300 | forbidden iff either side forbids; allowed iff both allow (a conjunction, not either alone); keeps the left side's dependencies |
| Workflows.FirstTransition | src/Plugin/Action/StateChange.php:297-298 | finds the first transition in the list that leads from the given state to the target; None exactly when no transition does |
| Workflows.TransitionTo | src/Plugin/Action/StateChange.php:298 | the transition it returns belongs to the workflow and connects the two states |
| Workflows.CanTransitionTo | src/Plugin/Action/StateChange.php:297 | a transition is possible exactly when some transition of the workflow connects the two states |
| Workflows.TransitionLookupIsOrderFree | src/Plugin/Action/StateChange.php:297-298 | in a well-formed workflow, any transition connecting the two states is the one the lookup returns, so the order the transitions are sorted in does not matter |
| Workflows.NoTransitionToUnknownState | src/Plugin/Action/StateChange.php:297 | in a well-formed workflow nothing leads to a state the workflow lacks |
| Workflows.TransitionPermission | src/Plugin/Action/StateChange.php:299 | the permission is literally `use `, the workflow id, ` transition `, the transition id |
| Workflows.TransitionPermissionsDistinct | src/Plugin/Action/StateChange.php:299 | different transitions of one workflow are guarded by different permissions |
| StateChangeAction.DefaultConfiguration | src/Plugin/Action/StateChange.php:117-122 | both the workflow and the state are NULL |
| StateChangeAction.AccessErrorMessage | src/Plugin/Action/StateChange.php:333-338 | the message is literally the reason, ` for `, the entity's label and a full stop |
| StateChangeAction.TransitionDecision | src/Plugin/Action/StateChange.php:294-308 | without a transition: forbidden, even when update is allowed; with one: allowed iff the account holds `use <wf> transition <tid>` AND update is allowed, forbidden iff update forbids |
| StateChangeAction.PreAlter | src/Plugin/Action/StateChange.php:289-308 | the decision before the hooks is taken on the latest revision, from its state: forbidden without a transition; allowed iff a transition exists, its permission is held and the latest revision allows `update` |
| StateChangeAction.AlterContext | src/Plugin/Action/StateChange.php:309-317 | the hooks receive the latest revision (not the object asked about), the account, the matching workflow, the latest revision's state, which is a state of that workflow, and the configured state |
| StateChangeAction.Access | src/Plugin/Action/StateChange.php:270-320 | null or non-content object: forbidden; no workflow: forbidden; other workflow: forbidden, depending on that workflow; only past every guard does the hook run; the final result is the hook's plus the workflow dependency; nothing that exits early is allowed |
| StateChangeAction.AccessWithoutAlterHooks | src/Plugin/Action/StateChange.php:276-319 | with no hook implementations, allowed iff: the workflow matches, a transition exists from the latest revision's state, its permission is held, and update is allowed |
| StateChangeAction.EarlyExitsBypassAlter | src/Plugin/Action/StateChange.php:270-288 | results decided before the end of the guard chain do not depend on the alter hooks |
| StateChangeAction.DefaultConfigurationForbidsAll | src/Plugin/Action/StateChange.php:117-122 | with the default (NULL) configuration every object is forbidden |
| StateChangeAction.ConfigurationDriftIsForbidden | src/Plugin/Action/StateChange.php:294-297 | a configured state that is NULL or missing from the workflow yields a forbidden pre-hook result |
| StateChangeAction.AddDependency | src/Plugin/Action/StateChange.php:226 | adds the name under its type and leaves the other types alone |
| StateChangeAction.WorkflowOptions | src/Plugin/Action/StateChange.php:129-136 | the options are exactly the workflows that apply to the entity type; the first option is the first such workflow |
| StateChangeAction.DefaultWorkflow | src/Plugin/Action/StateChange.php:138-145 | a non-empty form value wins; otherwise a non-empty configured workflow; otherwise the first option, NULL only when there are none |
| StateChangeAction.ExecutedRevision | src/Plugin/Action/StateChange.php:234-252 | the saved revision has the configured state. If revisionable: a new revision of the latest, keeping its default flag, with revision time and user stamped only when it keeps revision metadata. The changed time is stamped only when tracked. Nothing else changes |
| StateChangeAction.ExecuteCompletesCheckedTransition | src/Plugin/Action/StateChange.php:289-301 | when the pre-hook decision allows, execution against the same latest revisions saves a revision. That revision moves the checked state along a transition whose permission the account holds |
| StateChangeAction.StateChange.SubmitConfigurationForm | src/Plugin/Action/StateChange.php:216-219 | the configuration becomes the submitted workflow and state |
| StateChangeAction.StateChange.CalculateDependencies | src/Plugin/Action/StateChange.php:224-229 | a non-empty configured workflow adds the config dependency `workflows.workflow.<id>`; otherwise nothing changes; returns the dependencies |
| StateChangeAction.StateChange.LoadLatestRevision | src/Plugin/Action/StateChange.php:263-265 | a freshly loaded copy of the entity's latest revision, or NULL when there is none |
| StateChangeAction.StateChange.Execute | src/Plugin/Action/StateChange.php:234-252 | saves exactly once, as the last step, the revision `ExecutedRevision` describes; afterwards the entity's latest revision is in the configured state; a revisionable entity object is left untouched, any other is updated in place |
| Entities.EntityStorage.CreateRevision | src/Plugin/Action/StateChange.php:239-240 | a fresh object copying the entity, marked as a new revision, default exactly as asked |
| Entities.EntityStorage.Save | src/Plugin/Action/StateChange.php:251 | appends the entity to the save log and makes it the latest revision of its key |
| StateChangeDeriver.KeyUnion | src/Plugin/Deriver/StateChangeDeriver.php:85 | PHP `+`: the left array is kept as a prefix, unchanged; only entries of the right array whose key is not yet present are appended, no key twice; the key set is the union |
| StateChangeDeriver.KeyUnionOfLists | src/Plugin/Deriver/StateChangeDeriver.php:84-86 | on lists, `+=` only adds the elements at positions the collected list does not yet have |
| StateChangeDeriver.CollectAsWritten | src/Plugin/Deriver/StateChangeDeriver.php:82-86 | the collection as written: every entry is an entry of some workflow's entity-type list, and no key occurs twice |
| StateChangeDeriver.CollectAsWrittenIsPositional | src/Plugin/Deriver/StateChangeDeriver.php:81-86 | the collection as written equals the positional union of the workflows' entity-type lists |
| StateChangeDeriver.CollectAsWrittenKeepsEarlierEntries | src/Plugin/Deriver/StateChangeDeriver.php:84-86 | a later workflow never overwrites an earlier entry; it adds only entries whose key is new |
| StateChangeDeriver.AsWrittenDropsSecondWorkflowType | src/Plugin/Deriver/StateChangeDeriver.php:84-86 | with workflows on `node` and on `media`, only `node` is collected |
| StateChangeDeriver.MergeIds | src/Plugin/Deriver/StateChangeDeriver.php:85 | the corrected union: earlier ids kept as a prefix, the result holds exactly the ids of both, without duplicates |
| StateChangeDeriver.CollectEntityTypes | src/Plugin/Deriver/StateChangeDeriver.php:81-86 | the corrected collection: exactly the entity types of all workflows, each once |
| StateChangeDeriver.DerivativeFor | src/Plugin/Deriver/StateChangeDeriver.php:89-95 | `type` is the entity type id; `config_dependencies` is `{module: [provider]}`; derivative keys win over the base; other base keys are kept unchanged |
| StateChangeDeriver.Derivatives | src/Plugin/Deriver/StateChangeDeriver.php:88-96 | one derivative per collected id, keyed by that id, and it is the definition `DerivativeFor` builds for that entity type |
| StateChangeDeriver.AsWrittenDerivatives | src/Plugin/Deriver/StateChangeDeriver.php:82-96 | the derivatives as written: one for exactly each id of the `+=` collection |
| StateChangeDeriver.AsWrittenDerivativesWithinIntended | src/Plugin/Deriver/StateChangeDeriver.php:82-96 | as written, no action is declared for an entity type that no workflow uses; every action declared is the intended one for its type, but some intended ones may be missing |
| StateChangeDeriver.AsWrittenDeclaresNoMediaAction | src/Plugin/Deriver/StateChangeDeriver.php:84-96 | with workflows on `node` and on `media`, the derivatives as written have a `node` action and no `media` action; the intended ones have a `media` action |
| StateChangeDeriver.EveryWorkflowTypeDerived | src/Plugin/Deriver/StateChangeDeriver.php:82-96 | every entity type of every workflow has a derivative, and nothing else has; no workflows give no derivatives |
| StateChangeDeriver.Deriver.GetDerivativeDefinitions | src/Plugin/Deriver/StateChangeDeriver.php:78-98 | corrected: the previous derivatives are discarded; the new ones are exactly `Derivatives` of the corrected collection `CollectEntityTypes`, and are returned; `AsWrittenDerivatives` gives what the code as written declares |
| AccessAlterExample.ExampleAlter | content_moderation_actions.api.php:29-37 | for `cma_example_action_workflow_test`: forbidden, with the reason `Do use this example as a workflow machine name!`, depending only on the entity; any other workflow: unchanged |
| AccessAlterExample.HookCmaStateChangeAccessAlter | content_moderation_actions.api.php:29-37 | the in/out result becomes what `ExampleAlter` describes |
| AccessAlterExample.ExampleWorkflowNeverAllowed | content_moderation_actions.api.php:31-34 | with the example hook, an action bound to the example workflow is never allowed. Past the guards, the result carries the example reason and depends on both the entity and the workflow |
| AccessAlterExample.OtherWorkflowsUnaffected | content_moderation_actions.api.php:31-36 | for any other configured workflow, the example hook changes no access result |

## Left out

- `src/Controller/StateChange.php` (the direct state-change endpoint) is not part of this model. It is a thin adapter, and its access check delegates to a validation service that is not shown.
- Configuration-form rendering and the Ajax callbacks are not modelled. Only the workflow options and the default-workflow choice are.
- Logging is not modelled. Translation is reduced to plain strings: the error reason is `<reason> for <label>.`, and the derivative label records its template and argument. The `@` placeholders of the translation are HTML-escaped (a label `Tom & Jerry` becomes `Tom &amp; Jerry`). The model concatenates the raw label instead.
- Service factories and constructors are not modelled. The module handler, the moderation information service, the entity type manager, the clock and the current user are parameters.
- The boolean form of `access()` (`$return_as_object = FALSE`) is not modelled separately. It is `IsAllowed()` of the decision.
- Cacheability is reduced to a set of dependencies: workflows, entities and the permissions context. Cache contexts, tags and max-age are not modelled separately.
- `andIf` and `allowedIfHasPermission` follow the Drupal core access-result class, which is not part of this model. Its reasons are modelled as plain strings.
- DependencyTrait keeps each dependency type's names as a sorted list. The model keeps them as a set.
- Storage internals are not modelled: revision ids, translations and save failures. `CreateRevision` copies the entity and sets the new-revision and default flags.
- `Execute` on a NULL entity, a PHP fatal error, is excluded by the parameter's type.
- AlterData.fromState is the latest revision's state id. The code hands the hooks the workflow `State` object that `getState()` returns (StateChange.php:295, :314), while the hook documentation describes a string. The model does not distinguish the object from its id.
- `Access` always receives an account. `access()` without one (`$account = NULL`) is not modelled. In that case `update` access would be checked for the current user, and the hooks would receive NULL. When a transition exists, `allowedIfHasPermission(NULL, ...)` would fail with a type error.
- StateChangeDeriver.Deriver.GetDerivativeDefinitions: declares the derivatives of the corrected collection, not of the `+=` collection at StateChangeDeriver.php:84-86. What the code as written declares is `AsWrittenDerivatives`, and `AsWrittenDerivativesWithinIntended` relates the two.
- `typeInfo` is total. An unknown entity type id, which makes the entity type manager throw, is not modelled.
- Derivative definitions are unordered maps. The key order of the PHP arrays is not modelled.
- The example hook file calls `AccessResult::forbidden` without importing the class. The model reads it as the core access-result class.
- Idempotence of `Access` is not stated as a lemma. `Access` is a function of its inputs, so equal inputs give equal results by construction.

## Findings

| source | as written | input that shows it | evidently intended | confidence | as-written member | corrected member |
|---|---|---|---|---|---|---|
| src/Plugin/Deriver/StateChangeDeriver.php:84-86 | entity-type lists are combined with PHP array union, which goes by position for lists | one workflow on `[node]`, another on `[media]`: only `node` is collected, so `media` gets no action | collect the entity types of every workflow, each once | high, not executed | StateChangeDeriver.AsWrittenDeclaresNoMediaAction | StateChangeDeriver.EveryWorkflowTypeDerived |

`Deriver.GetDerivativeDefinitions` uses the corrected collection, `CollectEntityTypes`.
The collection as written is `CollectAsWritten`. `AsWrittenDropsSecondWorkflowType` shows that it loses `media`,
and `AsWrittenDerivatives` is the derivative map the code as written declares.
