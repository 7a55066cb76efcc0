/**
 * UEnemyConfiguration: a soft reference to a base template plus the
 * modifications one enemy applies on top of it.
 */
module EnemyConfiguration {
  import opened EnemyTemplateTypes
  import opened EnemyTemplate
  import opened TemplateValidation
  import opened TemplateMerge

  /** The soft reference resolves: it is set and names a template of the arena. */
  predicate Resolves(templates: Templates, base: Option<TemplateId>)
  {
    base.Some? && base.value in templates
  }

  predicate MultipliersPositive(multipliers: map<Name, real>)
  {
    forall k :: k in multipliers ==> multipliers[k] > 0.0
  }

  predicate HasAbilityNamed(abilities: seq<AbilityDefinition>, name: Name)
  {
    exists i :: 0 <= i < |abilities| && abilities[i].name == name
  }

  /** An override key ValidateConfiguration accepts: a real name carried by one of the template's abilities. */
  predicate KnownOverrideKey(abilities: seq<AbilityDefinition>, key: Name)
  {
    !IsNone(key) && HasAbilityNamed(abilities, key)
  }

  predicate OverridesKnown(abilities: seq<AbilityDefinition>, overrides: map<Name, AbilityDefinition>)
  {
    forall k :: k in overrides ==> KnownOverrideKey(abilities, k)
  }

  /** The error ValidateConfiguration records for a rejected override key. */
  function OverrideError(key: Name): Message
  {
    if IsNone(key) then InvalidAbilityModification else UnknownAbilityModification(key)
  }

  /** The base template of a resolving reference reaches a root, so that it can be validated. */
  predicate Validatable(templates: Templates, base: Option<TemplateId>)
  {
    Resolves(templates, base) ==> ReachesRoot(templates, base.value)
  }

  /**
   * What ValidateConfiguration accepts: a resolving base template that
   * validates without error, only positive multipliers, and override keys
   * that each name one of the template's abilities.
   */
  predicate ConfigurationValid(templates: Templates, base: Option<TemplateId>, modifications: Modification)
    requires Validatable(templates, base)
  {
    && Resolves(templates, base)
    && TemplateReport(templates, base.value).errors == []
    && MultipliersPositive(modifications.statMultipliers)
    && OverridesKnown(templates[base.value].abilities, modifications.modifiedAbilities)
  }

  /** The modifications InitializeFromTemplate installs: no multipliers, no overrides, the template's own records. */
  function InitialModifications(t: Template): Modification
  {
    Modification(map[], map[], t.aiConfig, t.visuals, t.tags)
  }

  /** Right after InitializeFromTemplate the effective configuration is exactly the template's own values. */
  lemma InitializedConfigurationIsTemplate(t: Template)
    ensures EffectiveConfiguration(t, Some(InitialModifications(t))) ==
            EffectiveConfig(t.baseStats, t.visuals, t.aiConfig, t.abilities)
  {
    EmptyModificationKeepsStatsAndAbilities(t, InitialModifications(t));
  }

  /** A freshly initialised configuration is valid exactly when its template validates without error. */
  lemma InitializedConfigurationValidIff(templates: Templates, id: TemplateId)
    requires id in templates && ReachesRoot(templates, id)
    ensures ConfigurationValid(templates, Some(id), InitialModifications(templates[id])) <==>
            TemplateReport(templates, id).errors == []
  {
  }

  /** In a valid configuration every override replaces at least one ability of the template. */
  lemma ValidOverridesTakeEffect(templates: Templates, base: Option<TemplateId>, modifications: Modification, key: Name)
    requires Validatable(templates, base) && ConfigurationValid(templates, base, modifications)
    requires key in modifications.modifiedAbilities
    ensures var effective := EffectiveConfiguration(templates[base.value], Some(modifications)).abilities;
            exists i :: 0 <= i < |effective| && effective[i] == modifications.modifiedAbilities[key]
  {
    var t := templates[base.value];
    assert KnownOverrideKey(t.abilities, key);
    var i :| 0 <= i < |t.abilities| && t.abilities[i].name == key;
    var effective := EffectiveAbilities(t.abilities, Some(modifications));
    assert effective[i] == modifications.modifiedAbilities[key];
  }

  /** The search loop of ValidateConfiguration: is there a template ability with this name? */
  method FindAbilityNamed(abilities: seq<AbilityDefinition>, name: Name) returns (found: bool)
    ensures found <==> HasAbilityNamed(abilities, name)
  {
    found := false;
    for i := 0 to |abilities|
      invariant !found ==> forall j :: 0 <= j < i ==> abilities[j].name != name
      invariant found ==> HasAbilityNamed(abilities, name)
    {
      if abilities[i].name == name {
        found := true;
        break;
      }
    }
  }

  class EnemyConfiguration {
    var baseTemplate: Option<TemplateId>
    var modifications: Modification

    /** A new configuration has no base template and empty modifications. */
    constructor ()
      ensures baseTemplate == None && modifications == DefaultModification()
    {
      baseTemplate := None;
      modifications := DefaultModification();
    }

    /**
     * InitializeFromTemplate: a null template changes nothing; otherwise
     * the base template is set, multipliers and overrides are emptied, and
     * the template's AI, visuals and tags are copied in.
     */
    method InitializeFromTemplate(templates: Templates, template: Option<TemplateId>)
      requires template.Some? ==> template.value in templates
      modifies this
      ensures template.None? ==> baseTemplate == old(baseTemplate) && modifications == old(modifications)
      ensures template.Some? ==> baseTemplate == template && modifications == InitialModifications(templates[template.value])
    {
      if template.None? {
        return;
      }
      var t := templates[template.value];
      baseTemplate := template;
      modifications := modifications.(statMultipliers := map[], modifiedAbilities := map[]);
      modifications := modifications.(aiModifications := t.aiConfig);
      modifications := modifications.(visualModifications := t.visuals);
      modifications := modifications.(additionalTags := t.tags);
    }

    /**
     * ApplyConfiguration: false when the enemy is missing or the base
     * template does not resolve; otherwise the template's ApplyToInstance
     * with these modifications.
     */
    method ApplyConfiguration(templates: Templates, enemy: Option<Instance>) returns (ok: bool, applied: Option<Application>)
      ensures ok <==> enemy.Some? && Resolves(templates, baseTemplate)
      ensures !ok ==> applied.None?
      ensures ok ==> applied == Some(Reached(templates[baseTemplate.value], enemy.value, Some(modifications)))
    {
      if enemy.None? || !Resolves(templates, baseTemplate) {
        return false, None;
      }
      var t := templates[baseTemplate.value];
      ok, applied := ApplyToInstance(t, enemy, Some(modifications));
    }

    /**
     * ValidateConfiguration: a missing base template is the single error;
     * a template that fails validation leaves its own result; then the
     * first non-positive multiplier, then the first bad override key, each
     * as the single error. The maps are visited in an unspecified order,
     * so which offending entry is reported is not fixed.
     */
    method ValidateConfiguration(templates: Templates, result: ValidationResult) returns (ok: bool)
      requires Validatable(templates, baseTemplate)
      modifies result
      ensures ok == ConfigurationValid(templates, baseTemplate, modifications)
      ensures ok == result.isValid && (ok ==> result.errors == [])
      ensures !Resolves(templates, baseTemplate) ==> result.errors == [NoBaseTemplate] && result.warnings == []
      ensures Resolves(templates, baseTemplate) ==>
                result.warnings == TemplateReport(templates, baseTemplate.value).warnings
      ensures Resolves(templates, baseTemplate) && TemplateReport(templates, baseTemplate.value).errors != [] ==>
                result.errors == TemplateReport(templates, baseTemplate.value).errors
      ensures Resolves(templates, baseTemplate) && TemplateReport(templates, baseTemplate.value).errors == [] &&
              !MultipliersPositive(modifications.statMultipliers) ==>
                exists k :: k in modifications.statMultipliers && modifications.statMultipliers[k] <= 0.0 &&
                  result.errors == [InvalidStatMultiplier(modifications.statMultipliers[k], k)]
      ensures Resolves(templates, baseTemplate) && TemplateReport(templates, baseTemplate.value).errors == [] &&
              MultipliersPositive(modifications.statMultipliers) &&
              !OverridesKnown(templates[baseTemplate.value].abilities, modifications.modifiedAbilities) ==>
                exists k :: k in modifications.modifiedAbilities &&
                  !KnownOverrideKey(templates[baseTemplate.value].abilities, k) && result.errors == [OverrideError(k)]
    {
      result.Clear();
      if !Resolves(templates, baseTemplate) {
        result.AddError(NoBaseTemplate);
        return false;
      }
      var id := baseTemplate.value;
      var t := templates[id];
      ok := ValidateTemplate(templates, id, result);
      if !ok {
        return;
      }
      var multipliers := modifications.statMultipliers;
      var unchecked := multipliers.Keys;
      while unchecked != {}
        invariant unchecked <= multipliers.Keys
        invariant forall k :: k in multipliers && k !in unchecked ==> multipliers[k] > 0.0
        invariant result.errors == [] && result.isValid
        invariant result.warnings == TemplateReport(templates, id).warnings
        decreases unchecked
      {
        var key :| key in unchecked;
        if multipliers[key] <= 0.0 {
          result.AddError(InvalidStatMultiplier(multipliers[key], key));
          return false;
        }
        unchecked := unchecked - {key};
      }
      var overrides := modifications.modifiedAbilities;
      unchecked := overrides.Keys;
      while unchecked != {}
        invariant unchecked <= overrides.Keys
        invariant forall k :: k in overrides && k !in unchecked ==> KnownOverrideKey(t.abilities, k)
        invariant result.errors == [] && result.isValid
        invariant result.warnings == TemplateReport(templates, id).warnings
        decreases unchecked
      {
        var key :| key in unchecked;
        if IsNone(key) {
          result.AddError(InvalidAbilityModification);
          return false;
        }
        var found := FindAbilityNamed(t.abilities, key);
        if !found {
          result.AddError(UnknownAbilityModification(key));
          return false;
        }
        unchecked := unchecked - {key};
      }
      return true;
    }
  }
}
