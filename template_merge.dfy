/**
 * The data part of UEnemyTemplate::ApplyToInstance: the stats, visuals, AI
 * configuration and ability list the call computes for a template and an
 * optional modification, and the part of them that reaches the engine.
 */
module TemplateMerge {
  import opened EnemyTemplateTypes
  import opened EnemyTemplate

  /** The seven float fields of FEnemyBaseStats. */
  datatype StatField = Health | Damage | Speed | AttackSpeed | Defense | CriticalChance | CriticalMultiplier

  /** The stat name a multiplier key must carry to reach a field. */
  function StatName(f: StatField): Name
  {
    match f
    case Health => "Health"
    case Damage => "Damage"
    case Speed => "Speed"
    case AttackSpeed => "AttackSpeed"
    case Defense => "Defense"
    case CriticalChance => "CriticalChance"
    case CriticalMultiplier => "CriticalMultiplier"
  }

  /** Different fields carry different names. */
  lemma StatNamesDistinct(f: StatField, g: StatField)
    ensures StatName(f) == StatName(g) <==> f == g
  {
  }

  /** GetStatValuePtr: the field a multiplier key resolves to, if any. */
  function StatFieldNamed(n: Name): (f: Option<StatField>)
    ensures f.Some? ==> StatName(f.value) == n
    ensures f.None? ==> forall g: StatField :: StatName(g) != n
  {
    if n == "Health" then Some(Health)
    else if n == "Damage" then Some(Damage)
    else if n == "Speed" then Some(Speed)
    else if n == "AttackSpeed" then Some(AttackSpeed)
    else if n == "Defense" then Some(Defense)
    else if n == "CriticalChance" then Some(CriticalChance)
    else if n == "CriticalMultiplier" then Some(CriticalMultiplier)
    else None
  }

  function GetStat(s: BaseStats, f: StatField): real
  {
    match f
    case Health => s.health
    case Damage => s.damage
    case Speed => s.speed
    case AttackSpeed => s.attackSpeed
    case Defense => s.defense
    case CriticalChance => s.criticalChance
    case CriticalMultiplier => s.criticalMultiplier
  }

  /** Writing through the field pointer: one field takes the new value and the others keep theirs. */
  function SetStat(s: BaseStats, f: StatField, v: real): (r: BaseStats)
    ensures GetStat(r, f) == v
    ensures forall g :: g != f ==> GetStat(r, g) == GetStat(s, g)
  {
    match f
    case Health => s.(health := v)
    case Damage => s.(damage := v)
    case Speed => s.(speed := v)
    case AttackSpeed => s.(attackSpeed := v)
    case Defense => s.(defense := v)
    case CriticalChance => s.(criticalChance := v)
    case CriticalMultiplier => s.(criticalMultiplier := v)
  }

  /** Two stat records are equal when every field agrees. */
  lemma StatsEqual(a: BaseStats, b: BaseStats)
    requires forall f :: GetStat(a, f) == GetStat(b, f)
    ensures a == b
  {
    assert GetStat(a, Health) == GetStat(b, Health);
    assert GetStat(a, Damage) == GetStat(b, Damage);
    assert GetStat(a, Speed) == GetStat(b, Speed);
    assert GetStat(a, AttackSpeed) == GetStat(b, AttackSpeed);
    assert GetStat(a, Defense) == GetStat(b, Defense);
    assert GetStat(a, CriticalChance) == GetStat(b, CriticalChance);
    assert GetStat(a, CriticalMultiplier) == GetStat(b, CriticalMultiplier);
  }

  /** The factor a multiplier map applies to one field: its entry under the field's name, or 1. */
  function Multiplier(multipliers: map<Name, real>, f: StatField): real
  {
    if StatName(f) in multipliers then multipliers[StatName(f)] else 1.0
  }

  /** The base stats with every multiplier whose key names a field multiplied into that field. */
  function MultipliedStats(base: BaseStats, multipliers: map<Name, real>): BaseStats
  {
    BaseStats(
      base.health * Multiplier(multipliers, Health),
      base.damage * Multiplier(multipliers, Damage),
      base.speed * Multiplier(multipliers, Speed),
      base.attackSpeed * Multiplier(multipliers, AttackSpeed),
      base.defense * Multiplier(multipliers, Defense),
      base.criticalChance * Multiplier(multipliers, CriticalChance),
      base.criticalMultiplier * Multiplier(multipliers, CriticalMultiplier))
  }

  /** Each field of the multiplied stats is the base field times that field's multiplier. */
  lemma MultipliedStatsField(base: BaseStats, multipliers: map<Name, real>, f: StatField)
    ensures GetStat(MultipliedStats(base, multipliers), f) == GetStat(base, f) * Multiplier(multipliers, f)
  {
    match f
    case Health =>
    case Damage =>
    case Speed =>
    case AttackSpeed =>
    case Defense =>
    case CriticalChance =>
    case CriticalMultiplier =>
  }

  /** Stats that agree field by field with the multiplied stats are the multiplied stats. */
  lemma MultipliedStatsUnique(base: BaseStats, multipliers: map<Name, real>, stats: BaseStats)
    requires forall f :: GetStat(stats, f) == GetStat(base, f) * Multiplier(multipliers, f)
    ensures stats == MultipliedStats(base, multipliers)
  {
    forall f
      ensures GetStat(stats, f) == GetStat(MultipliedStats(base, multipliers), f)
    {
      MultipliedStatsField(base, multipliers, f);
    }
    StatsEqual(stats, MultipliedStats(base, multipliers));
  }

  /** The ability ApplyToInstance applies in place of `a`: the override keyed by its name, if any. */
  function AbilityFor(a: AbilityDefinition, modification: Option<Modification>): AbilityDefinition
  {
    if modification.Some? && a.name in modification.value.modifiedAbilities
    then modification.value.modifiedAbilities[a.name]
    else a
  }

  /** The template's abilities, in order, each replaced by its override. */
  function EffectiveAbilities(abilities: seq<AbilityDefinition>, modification: Option<Modification>): (r: seq<AbilityDefinition>)
    ensures |r| == |abilities|
    ensures forall i :: 0 <= i < |r| ==> r[i] == AbilityFor(abilities[i], modification)
  {
    if abilities == [] then []
    else [AbilityFor(abilities[0], modification)] + EffectiveAbilities(abilities[1..], modification)
  }

  /** What ApplyToInstance computes. */
  datatype EffectiveConfig = EffectiveConfig(
    stats: BaseStats,
    visuals: VisualCustomization,
    aiConfig: AIConfig,
    abilities: seq<AbilityDefinition>)

  /**
   * The effective configuration of a template under an optional
   * modification: multiplied stats; the modification's visual and AI
   * records wholesale when it is present; overridden abilities.
   */
  function EffectiveConfiguration(t: Template, modification: Option<Modification>): EffectiveConfig
  {
    match modification
    case None => EffectiveConfig(t.baseStats, t.visuals, t.aiConfig, EffectiveAbilities(t.abilities, None))
    case Some(m) =>
      EffectiveConfig(MultipliedStats(t.baseStats, m.statMultipliers), m.visualModifications, m.aiModifications,
                      EffectiveAbilities(t.abilities, modification))
  }

  /** Without a modification the template's own values are applied unchanged. */
  lemma NoModificationKeepsTemplate(t: Template)
    ensures EffectiveConfiguration(t, None) == EffectiveConfig(t.baseStats, t.visuals, t.aiConfig, t.abilities)
  {
    var r := EffectiveAbilities(t.abilities, None);
    assert r == t.abilities;
  }

  /** A modification with no multipliers and no overrides changes only the visual and AI records. */
  lemma EmptyModificationKeepsStatsAndAbilities(t: Template, m: Modification)
    requires m.statMultipliers == map[] && m.modifiedAbilities == map[]
    ensures EffectiveConfiguration(t, Some(m)) == EffectiveConfig(t.baseStats, m.visualModifications, m.aiModifications, t.abilities)
  {
    var r := EffectiveAbilities(t.abilities, Some(m));
    assert r == t.abilities;
    StatsEqual(MultipliedStats(t.baseStats, m.statMultipliers), t.baseStats);
  }

  /** Adding or removing a key other than a field's name leaves that field's multiplier alone. */
  lemma OtherKeysKeepMultiplier(multipliers: map<Name, real>, key: Name, v: real, f: StatField)
    requires StatName(f) != key
    ensures Multiplier(multipliers - {key}, f) == Multiplier(multipliers, f)
    ensures Multiplier(multipliers[key := v], f) == Multiplier(multipliers, f)
  {
    var n := StatName(f);
    assert n in multipliers - {key} <==> n in multipliers;
    assert n in multipliers[key := v] <==> n in multipliers;
    if n in multipliers {
      assert (multipliers - {key})[n] == multipliers[n];
      assert multipliers[key := v][n] == multipliers[n];
    }
  }

  /** A multiplier key that names no stat field has no effect. */
  lemma UnresolvedMultiplierIgnored(base: BaseStats, multipliers: map<Name, real>, key: Name)
    requires StatFieldNamed(key).None?
    ensures MultipliedStats(base, multipliers) == MultipliedStats(base, multipliers - {key})
  {
    forall f: StatField
      ensures Multiplier(multipliers, f) == Multiplier(multipliers - {key}, f)
    {
      OtherKeysKeepMultiplier(multipliers, key, 1.0, f);
    }
  }

  /** An override whose key matches no template ability never reaches the applied list. */
  lemma UnmatchedOverrideInert(abilities: seq<AbilityDefinition>, m: Modification, key: Name)
    requires forall i :: 0 <= i < |abilities| ==> abilities[i].name != key
    ensures EffectiveAbilities(abilities, Some(m)) == EffectiveAbilities(abilities, Some(m.(modifiedAbilities := m.modifiedAbilities - {key})))
  {
    var r1 := EffectiveAbilities(abilities, Some(m));
    var r2 := EffectiveAbilities(abilities, Some(m.(modifiedAbilities := m.modifiedAbilities - {key})));
    assert |r1| == |r2|;
    forall i | 0 <= i < |r1|
      ensures r1[i] == r2[i]
    {
      OverrideRemovalKeepsAbility(abilities[i], m, key);
    }
  }

  lemma OverrideRemovalKeepsAbility(a: AbilityDefinition, m: Modification, key: Name)
    requires a.name != key
    ensures AbilityFor(a, Some(m)) == AbilityFor(a, Some(m.(modifiedAbilities := m.modifiedAbilities - {key})))
  {
    var overrides := m.modifiedAbilities - {key};
    assert a.name in overrides <==> a.name in m.modifiedAbilities;
    if a.name in overrides {
      assert overrides[a.name] == m.modifiedAbilities[a.name];
    }
  }

  /** Every applied ability is the template's own or an override keyed by one of its names. */
  lemma AppliedAbilitiesComeFromTemplate(abilities: seq<AbilityDefinition>, modification: Option<Modification>)
    ensures forall i :: 0 <= i < |abilities| ==>
              EffectiveAbilities(abilities, modification)[i] == abilities[i] ||
              (modification.Some? && abilities[i].name in modification.value.modifiedAbilities &&
               EffectiveAbilities(abilities, modification)[i] == modification.value.modifiedAbilities[abilities[i].name])
  {
  }

  /** With the template's default damage of 20, a "Damage" multiplier of 2 gives 40 and leaves health at 100. */
  lemma DoubleDamageExample(t: Template, m: Modification)
    requires t.baseStats == DefaultBaseStats()
    requires m.statMultipliers == map["Damage" := 2.0]
    ensures EffectiveConfiguration(t, Some(m)).stats.damage == 40.0
    ensures EffectiveConfiguration(t, Some(m)).stats.health == 100.0
  {
    assert StatName(Health) != "Damage";
  }

  /** The game character ApplyToInstance receives; only the presence of its ability system component matters here. */
  datatype Instance = Instance(hasAbilitySystem: bool)

  /** The factor a field has received once the keys outside `remaining` have been applied. */
  function FactorSoFar(multipliers: map<Name, real>, remaining: set<Name>, f: StatField): real
  {
    if StatName(f) in multipliers && StatName(f) !in remaining then multipliers[StatName(f)] else 1.0
  }

  /** One iteration of the stat loop keeps every field equal to its base times the factors applied so far. */
  lemma MultiplyStep(base: BaseStats, multipliers: map<Name, real>, remaining: set<Name>, stats: BaseStats, key: Name)
    requires key in remaining && remaining <= multipliers.Keys
    requires forall f :: GetStat(stats, f) == GetStat(base, f) * FactorSoFar(multipliers, remaining, f)
    ensures var next := match StatFieldNamed(key)
                        case None => stats
                        case Some(g) => SetStat(stats, g, GetStat(stats, g) * multipliers[key]);
            forall f :: GetStat(next, f) == GetStat(base, f) * FactorSoFar(multipliers, remaining - {key}, f)
  {
    var next := match StatFieldNamed(key)
                case None => stats
                case Some(g) => SetStat(stats, g, GetStat(stats, g) * multipliers[key]);
    forall f
      ensures GetStat(next, f) == GetStat(base, f) * FactorSoFar(multipliers, remaining - {key}, f)
    {
      if StatName(f) == key {
        assert StatFieldNamed(key) == Some(f) by {
          StatNamesDistinct(f, StatFieldNamed(key).value);
        }
        assert FactorSoFar(multipliers, remaining, f) == 1.0;
      } else {
        assert FactorSoFar(multipliers, remaining - {key}, f) == FactorSoFar(multipliers, remaining, f);
        if StatFieldNamed(key).Some? {
          assert StatFieldNamed(key).value != f;
        }
      }
    }
  }

  /** The stat loop of ApplyToInstance: each multiplier, in map order, scales the field its key resolves to. */
  method ApplyStatMultipliers(base: BaseStats, multipliers: map<Name, real>) returns (stats: BaseStats)
    ensures stats == MultipliedStats(base, multipliers)
  {
    stats := base;
    var remaining := multipliers.Keys;
    while remaining != {}
      invariant remaining <= multipliers.Keys
      invariant forall f :: GetStat(stats, f) == GetStat(base, f) * FactorSoFar(multipliers, remaining, f)
      decreases remaining
    {
      var key :| key in remaining;
      MultiplyStep(base, multipliers, remaining, stats, key);
      var field := StatFieldNamed(key);
      if field.Some? {
        stats := SetStat(stats, field.value, GetStat(stats, field.value) * multipliers[key]);
      }
      remaining := remaining - {key};
    }
    forall f
      ensures GetStat(stats, f) == GetStat(base, f) * Multiplier(multipliers, f)
    {
      assert FactorSoFar(multipliers, {}, f) == Multiplier(multipliers, f);
    }
    MultipliedStatsUnique(base, multipliers, stats);
  }

  /** The ability loop of ApplyToInstance: each template ability in order, or its override. */
  method ApplyAbilities(abilities: seq<AbilityDefinition>, modification: Option<Modification>) returns (applied: seq<AbilityDefinition>)
    ensures applied == EffectiveAbilities(abilities, modification)
  {
    applied := [];
    for i := 0 to |abilities|
      invariant applied == EffectiveAbilities(abilities[..i], modification)
    {
      var ability := abilities[i];
      if modification.Some? && ability.name in modification.value.modifiedAbilities {
        applied := applied + [modification.value.modifiedAbilities[ability.name]];
      } else {
        applied := applied + [ability];
      }
      assert abilities[..i + 1] == abilities[..i] + [ability];
    }
    assert abilities[..|abilities|] == abilities;
  }

  /**
   * What ApplyToInstance passes to the engine: the visuals, the AI
   * configuration and the abilities. The multiplied stats are computed but
   * never passed on.
   */
  datatype Application = Application(
    visuals: VisualCustomization,
    aiConfig: AIConfig,
    abilities: seq<AbilityDefinition>)

  /**
   * The part of the effective configuration that reaches an instance:
   * visuals and AI always, the abilities only when the instance has an
   * ability system component.
   */
  function Reached(t: Template, instance: Instance, modification: Option<Modification>): (r: Application)
    ensures r.visuals == EffectiveConfiguration(t, modification).visuals
    ensures r.aiConfig == EffectiveConfiguration(t, modification).aiConfig
    ensures instance.hasAbilitySystem ==> r.abilities == EffectiveConfiguration(t, modification).abilities
    ensures !instance.hasAbilitySystem ==> r.abilities == []
  {
    var effective := EffectiveConfiguration(t, modification);
    Application(effective.visuals, effective.aiConfig, if instance.hasAbilitySystem then effective.abilities else [])
  }

  /**
   * The stat multipliers have no effect on what reaches the instance:
   * replacing them by any other map leaves the application unchanged.
   */
  lemma StatMultipliersNeverReachInstance(t: Template, instance: Instance, m: Modification, other: map<Name, real>)
    ensures Reached(t, instance, Some(m)) == Reached(t, instance, Some(m.(statMultipliers := other)))
  {
    var m' := m.(statMultipliers := other);
    assert EffectiveAbilities(t.abilities, Some(m)) == EffectiveAbilities(t.abilities, Some(m'));
  }

  /** The multipliers do change the effective stats the call computes: a "Damage" multiplier of 2 moves them off the base stats. */
  lemma StatMultipliersChangeEffectiveStats(t: Template, m: Modification)
    requires t.baseStats == DefaultBaseStats() && m.statMultipliers == map["Damage" := 2.0]
    ensures EffectiveConfiguration(t, Some(m)).stats != t.baseStats
  {
    DoubleDamageExample(t, m);
  }

  /**
   * ApplyToInstance: false for a missing instance; otherwise true, with the
   * visuals, AI configuration and (given an ability system) abilities
   * passed on. The effective stats are computed and then discarded.
   */
  method ApplyToInstance(t: Template, instance: Option<Instance>, modification: Option<Modification>)
    returns (ok: bool, applied: Option<Application>)
    ensures ok <==> instance.Some?
    ensures instance.None? ==> applied.None?
    ensures instance.Some? ==> applied == Some(Reached(t, instance.value, modification))
  {
    if instance.None? {
      return false, None;
    }
    var stats := t.baseStats;
    if modification.Some? {
      stats := ApplyStatMultipliers(stats, modification.value.statMultipliers);
    }
    var visuals := t.visuals;
    if modification.Some? {
      visuals := modification.value.visualModifications;
    }
    var aiConfig := t.aiConfig;
    if modification.Some? {
      aiConfig := modification.value.aiModifications;
    }
    var abilities := [];
    if instance.value.hasAbilitySystem {
      abilities := ApplyAbilities(t.abilities, modification);
    }
    if modification.None? {
      NoModificationKeepsTemplate(t);
    }
    return true, Some(Application(visuals, aiConfig, abilities));
  }
}
