/** The deriver that declares one state-change action per entity type that
    some content-moderation workflow applies to. */
module StateChangeDeriver {
  import opened Workflows

  /** A PHP array with integer keys, in insertion order. */
  type IntKeyedArray = seq<(int, string)>

  function KeySet(a: IntKeyedArray): set<int>
  {
    set i | 0 <= i < |a| :: a[i].0
  }

  /** The values of an array, in order. */
  function Values(a: IntKeyedArray): (s: seq<string>)
    ensures |s| == |a| && forall i :: 0 <= i < |a| ==> s[i] == a[i].1
  {
    seq(|a|, i requires 0 <= i < |a| => a[i].1)
  }

  /** The entries `(k, s[k])` of the list `s` from position `from` on. */
  function Entries(s: seq<string>, from: nat): (r: IntKeyedArray)
    requires from <= |s|
    ensures |r| == |s| - from
    ensures forall i :: 0 <= i < |r| ==> r[i] == (from + i, s[from + i])
  {
    seq(|s| - from, i requires 0 <= i < |s| - from => (from + i, s[from + i]))
  }

  /** A list as PHP stores it: each element keyed by its position. */
  function AsArray(s: seq<string>): IntKeyedArray
  {
    Entries(s, 0)
  }

  lemma KeySetAppend(a: IntKeyedArray, e: (int, string))
    ensures KeySet(a + [e]) == KeySet(a) + {e.0}
  {
    assert forall i :: 0 <= i < |a| ==> (a + [e])[i] == a[i];
    assert (a + [e])[|a|] == e;
  }

  lemma KeySetTail(b: IntKeyedArray)
    requires b != []
    ensures KeySet(b) == {b[0].0} + KeySet(b[1..])
  {
    assert forall i :: 1 <= i < |b| ==> b[i] == b[1..][i - 1];
    assert forall i :: 0 <= i < |b| - 1 ==> b[1..][i] == b[i + 1];
  }

  /** PHP's array union `a + b`: every entry of `a` stays where and as it
      is, and an entry of `b` is appended only when its key is not yet
      present, so no appended key occurs twice. */
  function KeyUnion(a: IntKeyedArray, b: IntKeyedArray): (r: IntKeyedArray)
    decreases |b|
    ensures |a| <= |r| && r[..|a|] == a
    ensures KeySet(r) == KeySet(a) + KeySet(b)
    ensures forall i :: |a| <= i < |r| ==> r[i] in b && r[i].0 !in KeySet(a)
    ensures forall i, j :: |a| <= i < j < |r| ==> r[i].0 != r[j].0
  {
    if b == [] then a
    else
      KeySetTail(b);
      if b[0].0 in KeySet(a) then
        var r := KeyUnion(a, b[1..]);
        assert forall i :: |a| <= i < |r| ==> r[i] in b by {
          forall i | |a| <= i < |r| ensures r[i] in b {
            assert r[i] in b[1..];
          }
        }
        r
      else
        KeySetAppend(a, b[0]);
        var a' := a + [b[0]];
        var r := KeyUnion(a', b[1..]);
        assert r[..|a|] == r[..|a'|][..|a|];
        assert r[|a|] == a'[|a|] == b[0];
        assert forall i :: |a'| <= i < |r| ==> r[i] in b && r[i].0 !in KeySet(a) && r[i].0 != b[0].0 by {
          forall i | |a'| <= i < |r| ensures r[i] in b && r[i].0 !in KeySet(a) && r[i].0 != b[0].0 {
            assert r[i] in b[1..];
          }
        }
        r
  }

  /** What `+=` does to two lists: the longer list only contributes the
      elements at positions the shorter one does not have. */
  function PositionalUnion(a: seq<string>, b: seq<string>): seq<string>
  {
    if |b| <= |a| then a else a + b[|a|..]
  }

  lemma AsArrayAppend(a: seq<string>, x: string)
    ensures AsArray(a) + [(|a|, x)] == AsArray(a + [x])
  {
  }

  lemma EntriesTail(b: seq<string>, k: nat)
    requires k < |b|
    ensures Entries(b, k) != [] && Entries(b, k)[0] == (k, b[k]) && Entries(b, k)[1..] == Entries(b, k + 1)
  {
  }

  lemma KeysOfList(a: seq<string>, k: nat)
    ensures k in KeySet(AsArray(a)) <==> k < |a|
  {
    if k < |a| {
      assert AsArray(a)[k].0 == k;
    }
  }

  lemma KeyUnionUnfold(a: IntKeyedArray, b: IntKeyedArray)
    requires b != []
    ensures KeyUnion(a, b) == if b[0].0 in KeySet(a) then KeyUnion(a, b[1..]) else KeyUnion(a + [b[0]], b[1..])
  {
  }

  lemma PositionalUnionShift(a: seq<string>, b: seq<string>)
    requires |a| < |b|
    ensures PositionalUnion(a + [b[|a|]], b) == PositionalUnion(a, b)
  {
    assert b[|a|..] == [b[|a|]] + b[|a| + 1..];
  }

  /** An entry whose position the collected list already has is skipped. */
  lemma KeyUnionSkips(a: seq<string>, b: seq<string>, k: nat)
    requires k < |a| && k < |b|
    ensures KeyUnion(AsArray(a), Entries(b, k)) == KeyUnion(AsArray(a), Entries(b, k + 1))
  {
    EntriesTail(b, k);
    KeysOfList(a, k);
    KeyUnionUnfold(AsArray(a), Entries(b, k));
  }

  /** An entry at the first missing position is appended. */
  lemma KeyUnionAppends(a: seq<string>, b: seq<string>)
    requires |a| < |b|
    ensures KeyUnion(AsArray(a), Entries(b, |a|)) == KeyUnion(AsArray(a + [b[|a|]]), Entries(b, |a| + 1))
  {
    EntriesTail(b, |a|);
    KeysOfList(a, |a|);
    KeyUnionUnfold(AsArray(a), Entries(b, |a|));
    AsArrayAppend(a, b[|a|]);
  }

  lemma {:induction false} KeyUnionOfListsFrom(a: seq<string>, b: seq<string>, k: nat)
    requires k <= |a| && k <= |b|
    ensures KeyUnion(AsArray(a), Entries(b, k)) == AsArray(PositionalUnion(a, b))
    decreases |b| - k
  {
    if k == |b| {
      assert Entries(b, k) == [];
    } else if k < |a| {
      KeyUnionSkips(a, b, k);
      KeyUnionOfListsFrom(a, b, k + 1);
    } else {
      KeyUnionAppends(a, b);
      KeyUnionOfListsFrom(a + [b[k]], b, k + 1);
      PositionalUnionShift(a, b);
    }
  }

  /** On lists, PHP's key-wise union is positional. */
  lemma KeyUnionOfLists(a: seq<string>, b: seq<string>)
    ensures KeyUnion(AsArray(a), AsArray(b)) == AsArray(PositionalUnion(a, b))
  {
    KeyUnionOfListsFrom(a, b, 0);
  }

  /** The entity types collected as written: `$entity_types +=
      getEntityTypes()` for each workflow in turn, starting from `[]`. Every
      entry is an entry of some workflow's list, and no key occurs twice. */
  function CollectAsWritten(workflows: seq<Workflow>): (r: IntKeyedArray)
    ensures forall i :: 0 <= i < |r| ==> exists w :: w in workflows && r[i] in AsArray(w.entityTypes)
    ensures forall i, j :: 0 <= i < j < |r| ==> r[i].0 != r[j].0
  {
    if workflows == [] then []
    else
      var init := workflows[..|workflows| - 1];
      var last := workflows[|workflows| - 1];
      var acc := CollectAsWritten(init);
      var b := AsArray(last.entityTypes);
      var r := KeyUnion(acc, b);
      assert forall i :: 0 <= i < |r| ==> exists w :: w in workflows && r[i] in AsArray(w.entityTypes) by {
        forall i | 0 <= i < |r| ensures exists w :: w in workflows && r[i] in AsArray(w.entityTypes) {
          if i < |acc| {
            assert r[i] == acc[i];
            var w :| w in init && acc[i] in AsArray(w.entityTypes);
            assert w in workflows;
          } else {
            assert r[i] in b && last in workflows;
          }
        }
      }
      assert forall i, j :: 0 <= i < j < |r| ==> r[i].0 != r[j].0 by {
        forall i, j | 0 <= i < j < |r| ensures r[i].0 != r[j].0 {
          if j < |acc| {
            assert r[i] == acc[i] && r[j] == acc[j];
          } else if i < |acc| {
            assert r[i] == acc[i] && r[i].0 in KeySet(acc);
          }
        }
      }
      r
  }

  /** The same, computed on lists. */
  function PositionalCollect(workflows: seq<Workflow>): seq<string>
  {
    if workflows == [] then []
    else PositionalUnion(PositionalCollect(workflows[..|workflows| - 1]), workflows[|workflows| - 1].entityTypes)
  }

  lemma {:induction false} CollectAsWrittenIsPositional(workflows: seq<Workflow>)
    ensures CollectAsWritten(workflows) == AsArray(PositionalCollect(workflows))
    decreases |workflows|
  {
    if workflows == [] {
      assert AsArray([]) == [];
    } else {
      var init := workflows[..|workflows| - 1];
      CollectAsWrittenIsPositional(init);
      KeyUnionOfLists(PositionalCollect(init), workflows[|workflows| - 1].entityTypes);
    }
  }

  /** As written, the collection never overwrites an id collected earlier,
      and a later workflow's id at position `i` is taken only when no
      earlier workflow had as many as `i + 1` entity types. */
  lemma {:induction false} CollectAsWrittenKeepsEarlierEntries(workflows: seq<Workflow>, w: Workflow)
    ensures var before := CollectAsWritten(workflows);
            var after := CollectAsWritten(workflows + [w]);
            after[..|before|] == before &&
            KeySet(after) == KeySet(before) + KeySet(AsArray(w.entityTypes)) &&
            forall i :: |before| <= i < |after| ==> after[i] in AsArray(w.entityTypes) && after[i].0 !in KeySet(before)
  {
    assert (workflows + [w])[..|workflows|] == workflows;
  }

  /** Two workflows on different entity types, one on `node` and one on
      `media`: the smallest input on which the positional `+=` collection
      loses an entity type. */
  function NodeAndMediaWorkflows(): seq<Workflow>
  {
    [Workflow("editorial", {}, [], ["node"]), Workflow("media_review", {}, [], ["media"])]
  }

  /** Two workflows on two different entity types: as written, only the
      first workflow's entity type is collected, so the second gets no
      action. */
  lemma AsWrittenDropsSecondWorkflowType()
    ensures var workflows := NodeAndMediaWorkflows();
            Values(CollectAsWritten(workflows)) == ["node"] && "media" !in Values(CollectAsWritten(workflows))
  {
    var workflows := NodeAndMediaWorkflows();
    CollectAsWrittenIsPositional(workflows);
    assert workflows[..1] == [workflows[0]];
    assert [workflows[0]][..0] == [];
    assert PositionalCollect(workflows) == ["node"];
  }

  predicate NoDuplicates(s: seq<string>)
  {
    forall i, j :: 0 <= i < j < |s| ==> s[i] != s[j]
  }

  /** The evidently intended union: append the ids not yet collected, in
      order, so no id of any workflow is lost. */
  function MergeIds(acc: seq<string>, ids: seq<string>): (r: seq<string>)
    decreases |ids|
    ensures |acc| <= |r| && r[..|acc|] == acc
    ensures forall x :: x in r <==> x in acc || x in ids
    ensures NoDuplicates(acc) ==> NoDuplicates(r)
  {
    if ids == [] then acc
    else
      var next := if ids[0] in acc then acc else acc + [ids[0]];
      var r := MergeIds(next, ids[1..]);
      assert r[..|acc|] == r[..|next|][..|acc|];
      assert forall x :: x in ids <==> x == ids[0] || x in ids[1..];
      r
  }

  /** The entity types of all workflows, each once, in the order first seen. */
  function CollectEntityTypes(workflows: seq<Workflow>): (r: seq<string>)
    ensures NoDuplicates(r)
    ensures forall id :: id in r <==> exists w :: w in workflows && id in w.entityTypes
  {
    if workflows == [] then []
    else
      var init := workflows[..|workflows| - 1];
      var r := MergeIds(CollectEntityTypes(init), workflows[|workflows| - 1].entityTypes);
      assert forall w :: w in workflows <==> w in init || w == workflows[|workflows| - 1];
      r
  }

  /** Plugin-definition values. */
  datatype Value =
    | Text(text: string)
    | Translated(template: string, argument: string)
    | List(items: seq<string>)
    | Dict(entries: map<string, Value>)

  /** A plugin definition: keys to values. */
  type Definition = map<string, Value>

  /** What the entity type manager knows of an entity type. */
  datatype EntityTypeInfo = EntityTypeInfo(typeLabel: string, provider: string)

  const DerivativeKeys: set<string> := {"type", "label", "config_dependencies"}

  /** `$plugin + $base_plugin_definition` for one entity type: the three
      derivative keys win over the base definition's, whole (a base
      `config_dependencies` is replaced, not merged), and every other base
      key is kept unchanged. */
  function DerivativeFor(entityTypeId: string, info: EntityTypeInfo, base: Definition): (d: Definition)
    ensures d.Keys == base.Keys + DerivativeKeys
    ensures d["type"] == Text(entityTypeId)
    ensures d["label"] == Translated("Change moderation state of @entity_type", info.typeLabel)
    ensures d["config_dependencies"] == Dict(map["module" := List([info.provider])])
    ensures forall k :: k in base && k !in DerivativeKeys ==> d[k] == base[k]
  {
    base + map[
      "type" := Text(entityTypeId),
      "label" := Translated("Change moderation state of @entity_type", info.typeLabel),
      "config_dependencies" := Dict(map["module" := List([info.provider])])]
  }

  /** One derivative per id, keyed by that id: the definition built for
      that entity type. */
  function Derivatives(ids: seq<string>, typeInfo: string -> EntityTypeInfo, base: Definition): (m: map<string, Definition>)
    ensures forall id :: id in m <==> id in ids
    ensures forall id :: id in m ==> m[id] == DerivativeFor(id, typeInfo(id), base)
  {
    map id | id in ids :: DerivativeFor(id, typeInfo(id), base)
  }

  /** With the intended collection, every entity type of every workflow
      gets exactly one derivative, whose `type` is its key, and there are
      none without workflows. */
  lemma EveryWorkflowTypeDerived(workflows: seq<Workflow>, typeInfo: string -> EntityTypeInfo, base: Definition)
    ensures var m := Derivatives(CollectEntityTypes(workflows), typeInfo, base);
            m.Keys == (set w, id | w in workflows && id in w.entityTypes :: id) &&
            forall id :: id in m ==> "type" in m[id] && m[id]["type"] == Text(id)
    ensures workflows == [] ==> Derivatives(CollectEntityTypes(workflows), typeInfo, base) == map[]
  {
  }

  /** Every id the positional collection holds is an entity type of some
      workflow. */
  lemma {:induction false} PositionalCollectFromWorkflows(workflows: seq<Workflow>)
    ensures forall id :: id in PositionalCollect(workflows) ==> exists w :: w in workflows && id in w.entityTypes
    decreases |workflows|
  {
    if workflows != [] {
      var init := workflows[..|workflows| - 1];
      var last := workflows[|workflows| - 1];
      PositionalCollectFromWorkflows(init);
      var acc := PositionalCollect(init);
      forall id | id in PositionalCollect(workflows)
        ensures exists w :: w in workflows && id in w.entityTypes
      {
        if id in acc {
          var w :| w in init && id in w.entityTypes;
          assert w in workflows;
        } else {
          assert id in last.entityTypes[|acc|..];
          assert last in workflows;
        }
      }
    }
  }

  /** The derivatives the code as written declares: one per id of the
      collection `+=` builds. */
  function AsWrittenDerivatives(workflows: seq<Workflow>, typeInfo: string -> EntityTypeInfo, base: Definition): (m: map<string, Definition>)
    ensures forall id :: id in m <==> id in Values(CollectAsWritten(workflows))
  {
    Derivatives(Values(CollectAsWritten(workflows)), typeInfo, base)
  }

  /** As written, the deriver never declares an action for an entity type
      no workflow applies to, but may miss some that one does: its
      derivatives are a subset of the intended ones, built the same way. */
  lemma AsWrittenDerivativesWithinIntended(workflows: seq<Workflow>, typeInfo: string -> EntityTypeInfo, base: Definition)
    ensures var asWritten := AsWrittenDerivatives(workflows, typeInfo, base);
            var intended := Derivatives(CollectEntityTypes(workflows), typeInfo, base);
            asWritten.Keys <= intended.Keys &&
            forall id :: id in asWritten ==> asWritten[id] == intended[id]
  {
    CollectAsWrittenIsPositional(workflows);
    var p := PositionalCollect(workflows);
    assert Values(AsArray(p)) == p;
    PositionalCollectFromWorkflows(workflows);
  }

  /** The positional `+=` collection, seen in the derivative map: with one
      workflow on `node` and one on `media`, the code as written declares
      no `media` action, while the intended collection does. */
  lemma AsWrittenDeclaresNoMediaAction(typeInfo: string -> EntityTypeInfo, base: Definition)
    ensures "node" in AsWrittenDerivatives(NodeAndMediaWorkflows(), typeInfo, base)
    ensures "media" !in AsWrittenDerivatives(NodeAndMediaWorkflows(), typeInfo, base)
    ensures "media" in Derivatives(CollectEntityTypes(NodeAndMediaWorkflows()), typeInfo, base)
  {
    AsWrittenDropsSecondWorkflowType();
    var workflows := NodeAndMediaWorkflows();
    assert workflows[1] in workflows && "media" in workflows[1].entityTypes;
  }

  lemma CollectEntityTypesStep(workflows: seq<Workflow>, i: nat)
    requires i < |workflows|
    ensures CollectEntityTypes(workflows[..i + 1]) == MergeIds(CollectEntityTypes(workflows[..i]), workflows[i].entityTypes)
  {
    assert workflows[..i + 1][..i] == workflows[..i];
  }

  lemma DerivativesStep(ids: seq<string>, j: nat, typeInfo: string -> EntityTypeInfo, base: Definition)
    requires j < |ids|
    ensures Derivatives(ids[..j + 1], typeInfo, base) ==
            Derivatives(ids[..j], typeInfo, base)[ids[j] := DerivativeFor(ids[j], typeInfo(ids[j]), base)]
  {
    assert ids[..j + 1] == ids[..j] + [ids[j]];
  }

  /** The deriver, with the derivatives it declared last. */
  class Deriver {
    var derivatives: map<string, Definition>

    constructor ()
      ensures derivatives == map[]
    {
      derivatives := map[];
    }

    /** `getDerivativeDefinitions($base_plugin_definition)`: forget the
        previous derivatives, collect the entity types of every workflow,
        and declare one derivative per entity type. */
    method GetDerivativeDefinitions(workflows: seq<Workflow>, typeInfo: string -> EntityTypeInfo, base: Definition)
      returns (definitions: map<string, Definition>)
      modifies this
      ensures derivatives == Derivatives(CollectEntityTypes(workflows), typeInfo, base)
      ensures definitions == derivatives
    {
      derivatives := map[];
      var entityTypes: seq<string> := [];
      var i := 0;
      while i < |workflows|
        invariant 0 <= i <= |workflows|
        invariant entityTypes == CollectEntityTypes(workflows[..i])
        invariant derivatives == map[]
      {
        CollectEntityTypesStep(workflows, i);
        entityTypes := MergeIds(entityTypes, workflows[i].entityTypes);
        i := i + 1;
      }
      assert workflows[..|workflows|] == workflows;
      var j := 0;
      assert entityTypes[..0] == [];
      assert Derivatives([], typeInfo, base) == map[];
      while j < |entityTypes|
        invariant 0 <= j <= |entityTypes|
        invariant derivatives == Derivatives(entityTypes[..j], typeInfo, base)
      {
        var id := entityTypes[j];
        DerivativesStep(entityTypes, j, typeInfo, base);
        derivatives := derivatives[id := DerivativeFor(id, typeInfo(id), base)];
        j := j + 1;
      }
      assert entityTypes[..j] == entityTypes;
      definitions := derivatives;
    }
  }
}
