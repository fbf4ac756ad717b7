/** The read-only view of a content-moderation workflow that the action
    consumes: its states, its ordered transitions and the entity types it
    applies to. */
module Workflows {
  import opened Common

  /** A transition leads from any of several states to one state. */
  datatype Transition = Transition(id: string, from: seq<string>, to: string)

  datatype Workflow = Workflow(
    id: string,
    states: set<string>,
    transitions: seq<Transition>,  // in the order the type plugin lists them
    entityTypes: seq<string>)      // the type plugin's entity type ids, as a list

  /** Every transition names only states of its workflow, and no two
      transitions lead from the same state to the same state, as the
      workflow's validation requires. */
  ghost predicate WellFormed(wf: Workflow)
  {
    (forall t :: t in wf.transitions ==>
       t.to in wf.states && forall f :: f in t.from ==> f in wf.states) &&
    (forall i, j, f :: 0 <= i < j < |wf.transitions| && f in wf.transitions[i].from && f in wf.transitions[j].from ==>
       wf.transitions[i].to != wf.transitions[j].to)
  }

  /** Transition `t` leads from state `from` to the (possibly NULL) state `to`. */
  predicate Connects(t: Transition, from: string, to: Option<string>)
  {
    from in t.from && to == Some(t.to)
  }

  /** The index of the first transition in `ts` from `from` to `to`, if
      any. The type plugin sorts transitions by weight and label before the
      lookup; in a well-formed workflow at most one transition matches, so
      the order does not decide the result (`TransitionLookupIsOrderFree`). */
  function FirstTransition(ts: seq<Transition>, from: string, to: Option<string>): (r: Option<nat>)
    ensures r.Some? ==> r.value < |ts| && Connects(ts[r.value], from, to)
    ensures r.Some? ==> forall k :: 0 <= k < r.value ==> !Connects(ts[k], from, to)
    ensures r.None? ==> forall k :: 0 <= k < |ts| ==> !Connects(ts[k], from, to)
  {
    if ts == [] then None
    else if Connects(ts[0], from, to) then Some(0)
    else
      match FirstTransition(ts[1..], from, to)
      case None => None
      case Some(i) => Some(i + 1)
  }

  /** `$from_state->canTransitionTo($to)`: some transition of the workflow
      connects the two states. */
  predicate CanTransitionTo(wf: Workflow, from: string, to: Option<string>): (b: bool)
    ensures b <==> exists t :: t in wf.transitions && Connects(t, from, to)
  {
    var r := FirstTransition(wf.transitions, from, to);
    assert r.Some? ==> wf.transitions[r.value] in wf.transitions;
    assert r.None? ==> forall t :: t in wf.transitions ==> !Connects(t, from, to) by {
      if r.None? {
        forall t | t in wf.transitions ensures !Connects(t, from, to) {
          var k :| 0 <= k < |wf.transitions| && wf.transitions[k] == t;
        }
      }
    }
    r.Some?
  }

  /** `$from_state->getTransitionTo($to)`; only asked once a transition exists. */
  function TransitionTo(wf: Workflow, from: string, to: Option<string>): (t: Transition)
    requires CanTransitionTo(wf, from, to)
    ensures t in wf.transitions && Connects(t, from, to)
  {
    wf.transitions[FirstTransition(wf.transitions, from, to).value]
  }

  /** In a well-formed workflow the transition found is the only one that
      connects the two states, whatever order the transitions are in. */
  lemma TransitionLookupIsOrderFree(wf: Workflow, from: string, to: Option<string>, t: Transition)
    requires WellFormed(wf)
    requires t in wf.transitions && Connects(t, from, to)
    ensures CanTransitionTo(wf, from, to) && TransitionTo(wf, from, to) == t
  {
    var k :| 0 <= k < |wf.transitions| && wf.transitions[k] == t;
  }

  /** In a well-formed workflow no transition leads to a state the workflow
      does not have: a target state that has since been removed is never
      reachable. */
  lemma NoTransitionToUnknownState(wf: Workflow, from: string, to: string)
    requires WellFormed(wf)
    requires to !in wf.states
    ensures !CanTransitionTo(wf, from, Some(to))
  {
  }

  /** The permission that guards transition `transitionId` of `workflowId`:
      it names the workflow, then the transition. */
  function TransitionPermission(workflowId: string, transitionId: string): (p: string)
    ensures |p| == |workflowId| + |transitionId| + 16
    ensures p[..4] == "use " && p[4..4 + |workflowId|] == workflowId
    ensures p[4 + |workflowId|..|p| - |transitionId|] == " transition " && p[|p| - |transitionId|..] == transitionId
  {
    "use " + workflowId + " transition " + transitionId
  }

  /** Different transitions of one workflow are guarded by different
      permissions. */
  lemma TransitionPermissionsDistinct(workflowId: string, t1: string, t2: string)
    requires t1 != t2
    ensures TransitionPermission(workflowId, t1) != TransitionPermission(workflowId, t2)
  {
  }
}
