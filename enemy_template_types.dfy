/**
 * The record types of the enemy-template system (stats, abilities, AI
 * configuration, visual customization, modifications) and the
 * validation-result accumulator that every validator writes into.
 *
 * Asset references (meshes, animation blueprints, behaviour trees,
 * blackboards, ability classes, montages, textures, materials) are
 * `Option<AssetId>`: `None` stands for a null reference or one whose
 * `IsValid()` is false. Floating-point stat values are `real`.
 */
module EnemyTemplateTypes {

  datatype Option<+T> = None | Some(value: T)

  /** An FName. The empty string plays the part of NAME_None. */
  type Name = string

  const NoName: Name := ""

  predicate IsNone(n: Name)
  {
    n == NoName
  }

  /** Identity of an engine asset or class. */
  type AssetId = nat

  type AssetRef = Option<AssetId>

  /** A gameplay tag container: only copied and extended. */
  type Tags = set<string>

  datatype Vector = Vector(x: real, y: real, z: real)

  function UniformVector(s: real): Vector
  {
    Vector(s, s, s)
  }

  datatype LinearColor = LinearColor(r: real, g: real, b: real, a: real)

  const White: LinearColor := LinearColor(1.0, 1.0, 1.0, 1.0)

  /** FEnemyBaseStats */
  datatype BaseStats = BaseStats(
    health: real,
    damage: real,
    speed: real,
    attackSpeed: real,
    defense: real,
    criticalChance: real,      // declared clamp [0, 1]
    criticalMultiplier: real)  // declared clamp [1, ...)

  /** The field initialisers of FEnemyBaseStats. */
  function DefaultBaseStats(): (s: BaseStats)
    ensures 0.0 <= s.criticalChance <= 1.0 && s.criticalMultiplier >= 1.0
    ensures s.health > 0.0 && s.damage > 0.0 && s.speed > 0.0 && s.attackSpeed > 0.0 && s.defense > 0.0
  {
    BaseStats(100.0, 20.0, 300.0, 1.0, 10.0, 0.05, 2.0)
  }

  /**
   * FEnemyAbilityDefinition. `abilityClass` is read by the template code
   * although the struct declaration lacks it; it is added here as an
   * optional reference.
   */
  datatype AbilityDefinition = AbilityDefinition(
    name: Name,
    displayName: string,
    description: string,
    abilityTags: Tags,
    cooldownTime: real,
    range: real,
    cost: real,
    isPassive: bool,
    abilityClass: AssetRef,
    abilityMontage: AssetRef,
    abilityEffects: seq<AssetRef>)

  /** A default-constructed FEnemyAbilityDefinition. */
  function DefaultAbility(): (a: AbilityDefinition)
    ensures a.cooldownTime == 0.0 && a.range == 100.0 && a.cost == 0.0 && !a.isPassive
    ensures IsNone(a.name) && a.abilityClass == None && a.abilityMontage == None && a.abilityEffects == []
  {
    AbilityDefinition(NoName, "", "", {}, 0.0, 100.0, 0.0, false, None, None, [])
  }

  /** FEnemyAIConfig */
  datatype AIConfig = AIConfig(
    behaviorTree: AssetRef,
    blackboard: AssetRef,
    aggressionLevel: real,     // declared clamp [0, 1]
    preferredRange: real,
    useCover: bool,
    coordinateWithAllies: bool,
    behaviorParameters: map<Name, real>,
    personalityTags: Tags)

  /** A default-constructed FEnemyAIConfig. */
  function DefaultAIConfig(): (c: AIConfig)
    ensures 0.0 <= c.aggressionLevel <= 1.0
    ensures c.behaviorTree == None && c.blackboard == None
  {
    AIConfig(None, None, 0.5, 300.0, false, false, map[], {})
  }

  /** FEnemyVisualCustomization */
  datatype VisualCustomization = VisualCustomization(
    skeletalMesh: AssetRef,
    animationBlueprint: AssetRef,
    scale: Vector,
    colorTint: LinearColor,
    scalarParameters: map<Name, real>,
    vectorParameters: map<Name, LinearColor>,
    textureParameters: map<Name, AssetRef>,
    materialOverrides: map<int, AssetRef>)

  /** A default-constructed FEnemyVisualCustomization. */
  function DefaultVisualCustomization(): (v: VisualCustomization)
    ensures v.skeletalMesh == None && v.animationBlueprint == None
    ensures v.scale == UniformVector(1.0)
  {
    VisualCustomization(None, None, UniformVector(1.0), White, map[], map[], map[], map[])
  }

  /** FEnemyTemplateModification */
  datatype Modification = Modification(
    statMultipliers: map<Name, real>,
    modifiedAbilities: map<Name, AbilityDefinition>,
    aiModifications: AIConfig,
    visualModifications: VisualCustomization,
    additionalTags: Tags)

  function DefaultModification(): (m: Modification)
    ensures m.statMultipliers == map[] && m.modifiedAbilities == map[]
  {
    Modification(map[], map[], DefaultAIConfig(), DefaultVisualCustomization(), {})
  }

  /**
   * The localised messages the validators produce, one constructor per
   * message key, carrying the values formatted into the text.
   */
  datatype Message =
    | NoTemplateName                              // "Template name is required"
    | NoDisplayName                               // "Display name is empty"
    | InvalidParentTemplate(parentName: Name)     // "Parent template '{0}' is invalid"
    | NoSkeletalMesh                              // "Skeletal mesh is required"
    | NoAnimationBlueprint                        // "No animation blueprint specified"
    | NoBehaviorTree                              // "Behavior tree is required"
    | NoBlackboard                                // "Blackboard is required"
    | NoAbilityName(index: nat)                   // "Ability name is required for ability at index {0}"
    | NoAbilityClass(abilityName: Name)           // "Ability class is required for ability '{0}'"
    | NoBaseTemplate                              // "No base template specified"
    | InvalidStatMultiplier(value: real, stat: Name)  // "Invalid multiplier value {0} for stat {1}"
    | InvalidAbilityModification                  // "Invalid ability modification key"
    | UnknownAbilityModification(abilityName: Name)   // "Modification targets unknown ability {0}"

  /**
   * FEnemyTemplateValidationResult: a validity flag and two ordered message
   * lists, updated in place by AddError, AddWarning and Clear.
   */
  class ValidationResult {
    var isValid: bool
    var errors: seq<Message>
    var warnings: seq<Message>

    /** The flag agrees with the error list. Clear establishes this and both Add methods keep it. */
    predicate Consistent()
      reads this
    {
      isValid <==> errors == []
    }

    /** A fresh result is invalid and empty: it reads as failed until Clear is called. */
    constructor ()
      ensures !isValid && errors == [] && warnings == []
      ensures !Consistent()
    {
      isValid := false;
      errors := [];
      warnings := [];
    }

    method AddError(error: Message)
      modifies this
      ensures errors == old(errors) + [error]
      ensures warnings == old(warnings)
      ensures !isValid
      ensures Consistent()
    {
      errors := errors + [error];
      isValid := false;
    }

    method AddWarning(warning: Message)
      modifies this
      ensures warnings == old(warnings) + [warning]
      ensures errors == old(errors) && isValid == old(isValid)
      ensures old(Consistent()) ==> Consistent()
    {
      warnings := warnings + [warning];
    }

    method Clear()
      modifies this
      ensures isValid && errors == [] && warnings == []
      ensures Consistent()
    {
      isValid := true;
      errors := [];
      warnings := [];
    }
  }
}
