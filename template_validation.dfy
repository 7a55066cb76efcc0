/**
 * UEnemyTemplate::ValidateTemplate and its helpers. Each validator is a
 * method writing into a ValidationResult, proved against a function that
 * gives the messages it adds; the lemmas state what those messages mean.
 */
module TemplateValidation {
  import opened EnemyTemplateTypes
  import opened EnemyTemplate

  /** The messages one validation produces, in order. */
  datatype Report = Report(errors: seq<Message>, warnings: seq<Message>)

  function IdentityErrors(t: Template): seq<Message>
  {
    if IsNone(t.name) then [NoTemplateName] else []
  }

  function IdentityWarnings(t: Template): seq<Message>
  {
    if t.displayName == "" then [NoDisplayName] else []
  }

  /** ValidateVisualAssets: a missing mesh is an error and ends the check. */
  function VisualErrors(v: VisualCustomization): seq<Message>
  {
    if v.skeletalMesh.None? then [NoSkeletalMesh] else []
  }

  /** ValidateVisualAssets: a missing animation blueprint is only a warning, checked once the mesh is present. */
  function VisualWarnings(v: VisualCustomization): seq<Message>
  {
    if v.skeletalMesh.Some? && v.animationBlueprint.None? then [NoAnimationBlueprint] else []
  }

  /** ValidateAIConfiguration: the behaviour tree first; the blackboard only when the tree is present. */
  function AIErrors(ai: AIConfig): seq<Message>
  {
    if ai.behaviorTree.None? then [NoBehaviorTree]
    else if ai.blackboard.None? then [NoBlackboard]
    else []
  }

  /** TArray::IndexOfByKey: the position of the first element equal to `a`. */
  function IndexOf(abilities: seq<AbilityDefinition>, a: AbilityDefinition): (k: nat)
    requires a in abilities
    ensures k < |abilities| && abilities[k] == a
    ensures forall j :: 0 <= j < k ==> abilities[j] != a
  {
    if abilities[0] == a then 0 else 1 + IndexOf(abilities[1..], a)
  }

  /** The errors ValidateAbilities records for the ability at position `i`. */
  function AbilityEntryErrors(abilities: seq<AbilityDefinition>, i: nat): seq<Message>
    requires i < |abilities|
  {
    var a := abilities[i];
    (if IsNone(a.name) then [NoAbilityName(IndexOf(abilities, a))] else [])
    + (if a.abilityClass.None? then [NoAbilityClass(a.name)] else [])
  }

  /** The errors ValidateAbilities records for the first `n` abilities, in order. */
  function AbilityErrors(abilities: seq<AbilityDefinition>, n: nat): seq<Message>
    requires n <= |abilities|
  {
    if n == 0 then [] else AbilityErrors(abilities, n - 1) + AbilityEntryErrors(abilities, n - 1)
  }

  /** An ability passes when it has a name and an ability class. */
  predicate AbilityComplete(a: AbilityDefinition)
  {
    !IsNone(a.name) && a.abilityClass.Some?
  }

  /** Visuals, then AI, then abilities; a failing visual or AI check ends the sequence. */
  function CheckErrors(t: Template): seq<Message>
  {
    var visual := VisualErrors(t.visuals);
    if visual != [] then visual
    else
      var ai := AIErrors(t.aiConfig);
      if ai != [] then ai
      else AbilityErrors(t.abilities, |t.abilities|)
  }

  /**
   * The errors an invalid parent contributes: the "parent is invalid"
   * error followed by the parent's own errors. A valid parent, or none,
   * contributes nothing, and the parent's warnings are dropped.
   */
  function InheritedErrors(templates: Templates, id: TemplateId): seq<Message>
    requires id in templates && ReachesRoot(templates, id)
    decreases |InheritanceChain(templates, id)|, 0
  {
    match ParentOf(templates, id)
    case None => []
    case Some(p) =>
      ParentIsCloserToRoot(templates, id);
      var parentErrors := TemplateReport(templates, p).errors;
      if parentErrors == [] then [] else [InvalidParentTemplate(templates[p].name)] + parentErrors
  }

  /**
   * Everything ValidateTemplate records for `id`: identity errors, the
   * inherited errors, then the checks; the identity and visual warnings.
   */
  function TemplateReport(templates: Templates, id: TemplateId): Report
    requires id in templates && ReachesRoot(templates, id)
    decreases |InheritanceChain(templates, id)|, 1
  {
    var t := templates[id];
    Report(IdentityErrors(t) + InheritedErrors(templates, id) + CheckErrors(t),
           IdentityWarnings(t) + VisualWarnings(t.visuals))
  }

  /** The asset checks pass: mesh, behaviour tree, blackboard, and a name and class on every ability. */
  predicate AssetsComplete(t: Template)
  {
    && t.visuals.skeletalMesh.Some?
    && t.aiConfig.behaviorTree.Some?
    && t.aiConfig.blackboard.Some?
    && forall i :: 0 <= i < |t.abilities| ==> AbilityComplete(t.abilities[i])
  }

  /** A template that passes its own checks, with the parent left aside. */
  predicate LocallyValid(t: Template)
  {
    !IsNone(t.name) && AssetsComplete(t)
  }

  lemma EntryErrorsEmptyIff(abilities: seq<AbilityDefinition>, i: nat)
    requires i < |abilities|
    ensures AbilityEntryErrors(abilities, i) == [] <==> AbilityComplete(abilities[i])
  {
  }

  /** ValidateAbilities finds no error exactly when every ability has a name and a class. */
  lemma {:induction false} AbilityErrorsEmptyIff(abilities: seq<AbilityDefinition>, n: nat)
    requires n <= |abilities|
    ensures AbilityErrors(abilities, n) == [] <==> forall i :: 0 <= i < n ==> AbilityComplete(abilities[i])
  {
    if n > 0 {
      AbilityErrorsEmptyIff(abilities, n - 1);
      EntryErrorsEmptyIff(abilities, n - 1);
      var entry := AbilityEntryErrors(abilities, n - 1);
      assert AbilityErrors(abilities, n) == AbilityErrors(abilities, n - 1) + entry;
      assert AbilityErrors(abilities, n) == [] <==> AbilityErrors(abilities, n - 1) == [] && entry == [];
      assert (forall i :: 0 <= i < n ==> AbilityComplete(abilities[i])) <==>
             (forall i :: 0 <= i < n - 1 ==> AbilityComplete(abilities[i])) && AbilityComplete(abilities[n - 1]);
    }
  }

  /** The errors recorded for the ability at position `i` are among those for any longer prefix. */
  lemma {:induction false} EntryErrorsKept(abilities: seq<AbilityDefinition>, i: nat, n: nat)
    requires i < n <= |abilities|
    ensures forall m :: m in AbilityEntryErrors(abilities, i) ==> m in AbilityErrors(abilities, n)
  {
    if i < n - 1 {
      EntryErrorsKept(abilities, i, n - 1);
    }
  }

  /**
   * ValidateAbilities does not stop at the first failure: an unnamed
   * ability is reported with the index of the first equal entry, and an
   * ability without a class is reported by name, wherever it sits.
   */
  lemma AbilityErrorsReportEveryAbility(abilities: seq<AbilityDefinition>, i: nat)
    requires i < |abilities|
    ensures IsNone(abilities[i].name) ==>
              NoAbilityName(IndexOf(abilities, abilities[i])) in AbilityErrors(abilities, |abilities|)
    ensures abilities[i].abilityClass.None? ==>
              NoAbilityClass(abilities[i].name) in AbilityErrors(abilities, |abilities|)
  {
    EntryErrorsKept(abilities, i, |abilities|);
  }

  /** The only messages ValidateAbilities produces are the two ability messages. */
  lemma {:induction false} AbilityErrorsKinds(abilities: seq<AbilityDefinition>, n: nat)
    requires n <= |abilities|
    ensures forall m :: m in AbilityErrors(abilities, n) ==> m.NoAbilityName? || m.NoAbilityClass?
  {
    if n > 0 {
      AbilityErrorsKinds(abilities, n - 1);
    }
  }

  /** The visual, AI and ability checks pass exactly when every required asset is present. */
  lemma CheckErrorsEmptyIff(t: Template)
    ensures CheckErrors(t) == [] <==> AssetsComplete(t)
  {
    AbilityErrorsEmptyIff(t.abilities, |t.abilities|);
  }

  /**
   * A missing mesh yields exactly the "Skeletal mesh is required" error from
   * the checks; the AI and ability checks add nothing.
   */
  lemma MissingMeshStopsChecks(t: Template)
    requires t.visuals.skeletalMesh.None?
    ensures CheckErrors(t) == [NoSkeletalMesh]
    ensures VisualWarnings(t.visuals) == []
  {
  }

  /**
   * A missing behaviour tree is reported without looking at the blackboard,
   * and a missing blackboard is the only AI error otherwise; the ability
   * check is skipped in both cases.
   */
  lemma MissingAIAssetStopsChecks(t: Template)
    requires t.visuals.skeletalMesh.Some?
    requires t.aiConfig.behaviorTree.None? || t.aiConfig.blackboard.None?
    ensures CheckErrors(t) == if t.aiConfig.behaviorTree.None? then [NoBehaviorTree] else [NoBlackboard]
  {
  }

  /** An empty display name only ever adds a warning: the errors do not depend on it. */
  lemma DisplayNameOnlyWarns(templates: Templates, id: TemplateId, displayName: string)
    requires id in templates && ReachesRoot(templates, id)
    ensures var renamed := templates[id := templates[id].(displayName := displayName)];
            && id in renamed && ReachesRoot(renamed, id)
            && TemplateReport(renamed, id).errors == TemplateReport(templates, id).errors
  {
    var renamed := templates[id := templates[id].(displayName := displayName)];
    SameParentsSameChain(templates, renamed, [], id);
    SameParentsSameReport(templates, renamed, id);
  }

  /** Two arenas with the same keys and the same parent links. */
  predicate SameParents(a: Templates, b: Templates)
  {
    a.Keys == b.Keys && forall id :: id in a ==> a[id].parent == b[id].parent
  }

  lemma {:induction false} SameParentsSameChain(a: Templates, b: Templates, visited: seq<TemplateId>, current: TemplateId)
    requires SameParents(a, b) && current in a && current !in visited
    ensures current in b && ChainFrom(a, visited, current) == ChainFrom(b, visited, current)
    decreases a.Keys - set v | v in visited
  {
    WalkShrinks(a.Keys, visited, current);
    assert ParentOf(a, current) == ParentOf(b, current);
    match ParentOf(a, current)
    case None =>
    case Some(p) =>
      if p !in visited + [current] {
        SameParentsSameChain(a, b, visited + [current], p);
      }
  }

  /**
   * Errors depend only on the parent links, the names and the checked
   * fields: arenas that differ only in display names give the same errors.
   */
  lemma {:induction false} SameParentsSameReport(a: Templates, b: Templates, id: TemplateId)
    requires SameParents(a, b) && id in a && ReachesRoot(a, id)
    requires forall k :: k in a ==> a[k] == b[k].(displayName := a[k].displayName)
    ensures id in b && ReachesRoot(b, id)
    ensures TemplateReport(a, id).errors == TemplateReport(b, id).errors
    decreases |InheritanceChain(a, id)|
  {
    SameParentsSameChain(a, b, [], id);
    assert ParentOf(a, id) == ParentOf(b, id);
    match ParentOf(a, id)
    case None =>
    case Some(p) =>
      ParentChain(a, id);
      ParentChain(b, id);
      SameParentsSameReport(a, b, p);
  }

  /** Every template listed in `chain` exists and passes its own checks. */
  predicate AllLocallyValid(templates: Templates, chain: seq<TemplateId>)
  {
    forall k :: 0 <= k < |chain| ==> chain[k] in templates && LocallyValid(templates[chain[k]])
  }

  lemma AllLocallyValidCons(templates: Templates, id: TemplateId, rest: seq<TemplateId>)
    requires id in templates
    ensures AllLocallyValid(templates, [id] + rest) <==> LocallyValid(templates[id]) && AllLocallyValid(templates, rest)
  {
    var chain := [id] + rest;
    assert chain[0] == id;
    assert forall k :: 0 <= k < |rest| ==> chain[k + 1] == rest[k];
    if LocallyValid(templates[id]) && AllLocallyValid(templates, rest) {
      forall k | 0 <= k < |chain|
        ensures chain[k] in templates && LocallyValid(templates[chain[k]])
      {
        if k > 0 {
          assert chain[k] == rest[k - 1];
        }
      }
    }
  }

  /** One step of the cascade: no error exactly when the template passes its own checks and its parent, if any, has no error. */
  lemma ReportErrorsEmptyIff(templates: Templates, id: TemplateId)
    requires id in templates && ReachesRoot(templates, id)
    ensures TemplateReport(templates, id).errors == [] <==>
              LocallyValid(templates[id]) && InheritedErrors(templates, id) == []
  {
    CheckErrorsEmptyIff(templates[id]);
  }

  /**
   * Errors cascade up the chain: a template validates without error exactly
   * when every template on its inheritance chain passes its own checks.
   */
  lemma {:induction false} ValidIffChainLocallyValid(templates: Templates, id: TemplateId)
    requires id in templates && ReachesRoot(templates, id)
    ensures TemplateReport(templates, id).errors == [] <==> AllLocallyValid(templates, InheritanceChain(templates, id))
    decreases |InheritanceChain(templates, id)|
  {
    ReportErrorsEmptyIff(templates, id);
    match ParentOf(templates, id)
    case None =>
      InheritanceChainShape(templates, id);
    case Some(p) =>
      ParentChain(templates, id);
      ValidIffChainLocallyValid(templates, p);
      AllLocallyValidCons(templates, id, InheritanceChain(templates, p));
  }

  /**
   * Validation along the cycle-guarded chain has an answer even where the
   * recursion has none: for a template that is its own parent it asks only
   * that the template pass its own checks.
   */
  lemma SelfParentGuardedValidity(templates: Templates, id: TemplateId)
    requires id in templates && templates[id].parent == Some(id)
    ensures AllLocallyValid(templates, InheritanceChain(templates, id)) <==> LocallyValid(templates[id])
  {
    SelfParentIsCyclic(templates, id);
  }

  /** The recursion on the parent terminates: its chain is one shorter and still reaches a root. */
  lemma ParentIsCloserToRoot(templates: Templates, id: TemplateId)
    requires id in templates && ReachesRoot(templates, id) && ParentOf(templates, id).Some?
    ensures var p := ParentOf(templates, id).value;
            p in templates && ReachesRoot(templates, p) &&
            |InheritanceChain(templates, p)| < |InheritanceChain(templates, id)|
  {
    ParentChain(templates, id);
  }

  lemma ConcatAssociates<T>(a: seq<T>, b: seq<T>, c: seq<T>)
    ensures (a + b) + c == a + (b + c)
  {
  }

  /** ValidateVisualAssets */
  method ValidateVisualAssets(t: Template, result: ValidationResult) returns (ok: bool)
    modifies result
    ensures ok == (VisualErrors(t.visuals) == [])
    ensures result.errors == old(result.errors) + VisualErrors(t.visuals)
    ensures result.warnings == old(result.warnings) + VisualWarnings(t.visuals)
    ensures result.isValid == (old(result.isValid) && ok)
  {
    if t.visuals.skeletalMesh.None? {
      result.AddError(NoSkeletalMesh);
      return false;
    }
    if t.visuals.animationBlueprint.None? {
      result.AddWarning(NoAnimationBlueprint);
    }
    return true;
  }

  /** ValidateAIConfiguration */
  method ValidateAIConfiguration(t: Template, result: ValidationResult) returns (ok: bool)
    modifies result
    ensures ok == (AIErrors(t.aiConfig) == [])
    ensures result.errors == old(result.errors) + AIErrors(t.aiConfig)
    ensures result.warnings == old(result.warnings)
    ensures result.isValid == (old(result.isValid) && ok)
  {
    if t.aiConfig.behaviorTree.None? {
      result.AddError(NoBehaviorTree);
      return false;
    }
    if t.aiConfig.blackboard.None? {
      result.AddError(NoBlackboard);
      return false;
    }
    return true;
  }

  /** ValidateAbilities: checks every ability, recording each failure. */
  method ValidateAbilities(t: Template, result: ValidationResult) returns (ok: bool)
    modifies result
    ensures ok == (AbilityErrors(t.abilities, |t.abilities|) == [])
    ensures result.errors == old(result.errors) + AbilityErrors(t.abilities, |t.abilities|)
    ensures result.warnings == old(result.warnings)
    ensures result.isValid == (old(result.isValid) && ok)
  {
    ok := true;
    for i := 0 to |t.abilities|
      invariant ok == (AbilityErrors(t.abilities, i) == [])
      invariant result.errors == old(result.errors) + AbilityErrors(t.abilities, i)
      invariant result.warnings == old(result.warnings)
      invariant result.isValid == (old(result.isValid) && ok)
    {
      ghost var before := result.errors;
      var ability := t.abilities[i];
      if IsNone(ability.name) {
        result.AddError(NoAbilityName(IndexOf(t.abilities, ability)));
        ok := false;
      }
      if ability.abilityClass.None? {
        result.AddError(NoAbilityClass(ability.name));
        ok := false;
      }
      assert result.errors == before + AbilityEntryErrors(t.abilities, i);
      ConcatAssociates(old(result.errors), AbilityErrors(t.abilities, i), AbilityEntryErrors(t.abilities, i));
    }
  }

  /**
   * The visual, AI and ability stages of ValidateTemplate, in order; a
   * failing stage ends the sequence and makes ValidateTemplate return false.
   */
  method ValidateStages(t: Template, result: ValidationResult) returns (ok: bool)
    modifies result
    ensures ok == (CheckErrors(t) == [])
    ensures result.errors == old(result.errors) + CheckErrors(t)
    ensures result.warnings == old(result.warnings) + VisualWarnings(t.visuals)
    ensures result.isValid == (old(result.isValid) && ok)
  {
    ghost var prefix := result.errors;
    ok := ValidateVisualAssets(t, result);
    if !ok {
      return;
    }
    assert result.errors == prefix + [] == prefix;
    ok := ValidateAIConfiguration(t, result);
    if !ok {
      return;
    }
    assert result.errors == prefix + [] == prefix;
    ok := ValidateAbilities(t, result);
  }

  /**
   * ValidateTemplate: clears the result, then checks identity, the parent
   * (recursively, into a result of its own), visuals, AI and abilities.
   * It returns true exactly when no error was recorded. The parent chain
   * must be acyclic: the recursion has no cycle guard.
   */
  method ValidateTemplate(templates: Templates, id: TemplateId, result: ValidationResult) returns (ok: bool)
    requires id in templates && ReachesRoot(templates, id)
    modifies result
    ensures result.errors == TemplateReport(templates, id).errors
    ensures result.warnings == TemplateReport(templates, id).warnings
    ensures ok == result.isValid == (result.errors == [])
    decreases |InheritanceChain(templates, id)|
  {
    result.Clear();
    var t := templates[id];
    if IsNone(t.name) {
      result.AddError(NoTemplateName);
    }
    if t.displayName == "" {
      result.AddWarning(NoDisplayName);
    }
    assert result.errors == IdentityErrors(t) && result.warnings == IdentityWarnings(t);
    assert result.Consistent();
    var parent := ParentOf(templates, id);
    if parent.Some? {
      ParentIsCloserToRoot(templates, id);
      var parentResult := new ValidationResult();
      assert parentResult != result;
      var parentOk := ValidateTemplate(templates, parent.value, parentResult);
      assert result.errors == IdentityErrors(t) && result.warnings == IdentityWarnings(t) && result.Consistent();
      assert InheritedErrors(templates, id) ==
        if parentResult.errors == [] then [] else [InvalidParentTemplate(templates[parent.value].name)] + parentResult.errors;
      if !parentOk {
        result.AddError(InvalidParentTemplate(templates[parent.value].name));
        result.errors := result.errors + parentResult.errors;
        ConcatAssociates(IdentityErrors(t), [InvalidParentTemplate(templates[parent.value].name)], parentResult.errors);
      }
    } else {
      assert InheritedErrors(templates, id) == [];
    }
    assert result.errors == IdentityErrors(t) + InheritedErrors(templates, id);
    assert result.warnings == IdentityWarnings(t);
    assert result.Consistent();
    ConcatAssociates(IdentityErrors(t), InheritedErrors(templates, id), CheckErrors(t));
    ok := ValidateStages(t, result);
    if !ok {
      return;
    }
    ok := result.isValid;
  }
}
