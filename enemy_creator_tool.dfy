/**
 * The template-building part of UEnemyCreatorTool: per-type default stats,
 * AI settings, tag, scale and ability list, default asset loading, and
 * CreateNewEnemyTemplate.
 *
 * Asset loading (StaticLoadObject, LoadClass, LoadObject) is modelled by an
 * AssetCatalog: the assets that exist, keyed by object path. A path that is
 * not in the catalog fails to load and the field keeps its value.
 */
module EnemyCreatorTool {
  import opened EnemyTemplateTypes
  import opened EnemyTemplate
  import opened TemplateValidation

  /** EEnemyType */
  datatype EnemyType = Melee | Ranged | Support | Elite | Boss

  function TypeName(t: EnemyType): string
  {
    match t
    case Melee => "Melee"
    case Ranged => "Ranged"
    case Support => "Support"
    case Elite => "Elite"
    case Boss => "Boss"
  }

  /** UEnum::GetValueAsString: the enumerator qualified by its enum's name. */
  function EnumValueString(t: EnemyType): string
  {
    "EEnemyType::" + TypeName(t)
  }

  /** The gameplay tag InitializeTemplateDefaults adds. */
  function TypeTag(t: EnemyType): string
  {
    "Enemy.Type." + EnumValueString(t)
  }

  /** The per-type stat table of InitializeTemplateDefaults; every row respects the declared clamps. */
  function TypeStats(t: EnemyType): (s: BaseStats)
    ensures 0.0 <= s.criticalChance <= 1.0 && s.criticalMultiplier >= 1.0
    ensures s.health > 0.0 && s.damage > 0.0 && s.speed > 0.0 && s.attackSpeed > 0.0 && s.defense > 0.0
  {
    match t
    case Melee => BaseStats(100.0, 25.0, 400.0, 1.0, 15.0, 0.05, 2.0)
    case Ranged => BaseStats(80.0, 20.0, 350.0, 0.8, 10.0, 0.1, 2.5)
    case Support => BaseStats(90.0, 15.0, 375.0, 0.9, 12.0, 0.03, 1.8)
    case Elite => BaseStats(200.0, 35.0, 425.0, 1.2, 25.0, 0.15, 2.8)
    case Boss => BaseStats(500.0, 50.0, 350.0, 0.7, 40.0, 0.2, 3.0)
  }

  /**
   * The per-type AI settings of InitializeTemplateDefaults: aggression,
   * preferred range, cover and coordination are written, the aggression
   * within its declared clamp; the assets and parameters are left alone.
   */
  function WithTypeAI(ai: AIConfig, t: EnemyType): (r: AIConfig)
    ensures 0.0 <= r.aggressionLevel <= 1.0 && r.preferredRange > 0.0
    ensures r.behaviorTree == ai.behaviorTree && r.blackboard == ai.blackboard
    ensures r.behaviorParameters == ai.behaviorParameters && r.personalityTags == ai.personalityTags
  {
    match t
    case Melee => ai.(aggressionLevel := 0.8, preferredRange := 200.0, useCover := false, coordinateWithAllies := true)
    case Ranged => ai.(aggressionLevel := 0.4, preferredRange := 800.0, useCover := true, coordinateWithAllies := true)
    case Support => ai.(aggressionLevel := 0.2, preferredRange := 600.0, useCover := true, coordinateWithAllies := true)
    case Elite => ai.(aggressionLevel := 0.7, preferredRange := 400.0, useCover := true, coordinateWithAllies := true)
    case Boss => ai.(aggressionLevel := 0.9, preferredRange := 300.0, useCover := false, coordinateWithAllies := false)
  }

  /** The uniform visual scale: enlarged for Boss and Elite only, and never shrunk. */
  function TypeScale(t: EnemyType): (s: real)
    ensures 1.0 <= s <= 2.0
    ensures s > 1.0 <==> t == Boss || t == Elite
  {
    match t
    case Boss => 2.0
    case Elite => 1.5
    case _ => 1.0
  }

  /** The names of the default abilities. */
  const BasicAttackName: Name := "BasicAttack"
  const ChargeName: Name := "Charge"
  const CleaveName: Name := "Cleave"
  const PowerShotName: Name := "PowerShot"
  const VolleyName: Name := "Volley"
  const HealName: Name := "Heal"
  const BuffName: Name := "Buff"
  const UltimateName: Name := "Ultimate"
  const Phase1Name: Name := "Phase1"
  const Phase2Name: Name := "Phase2"

  /** A default-constructed ability with its name, cooldown and range filled in. */
  function NewAbility(name: Name, cooldown: real, range: real): AbilityDefinition
  {
    DefaultAbility().(name := name, cooldownTime := cooldown, range := range)
  }

  function BasicAttack(t: EnemyType): AbilityDefinition
  {
    NewAbility(BasicAttackName, 1.0, if t == Ranged then 800.0 else 200.0)
  }

  /** The abilities LoadDefaultAbilities adds after BasicAttack. */
  function TypeAbilities(t: EnemyType): seq<AbilityDefinition>
  {
    match t
    case Melee => [NewAbility(ChargeName, 8.0, 600.0),
                   NewAbility(CleaveName, 5.0, 250.0)]
    case Ranged => [NewAbility(PowerShotName, 10.0, 1000.0),
                    NewAbility(VolleyName, 15.0, 800.0)]
    case Support => [NewAbility(HealName, 12.0, 500.0),
                     NewAbility(BuffName, 20.0, 600.0)]
    case Elite => [NewAbility(UltimateName, 30.0, 400.0)]
    case Boss => [NewAbility(Phase1Name, 45.0, 1000.0),
                  NewAbility(Phase2Name, 60.0, 1000.0)]
  }

  function AbilityNames(abilities: seq<AbilityDefinition>): (names: seq<Name>)
    ensures |names| == |abilities|
    ensures forall i :: 0 <= i < |names| ==> names[i] == abilities[i].name
  {
    if abilities == [] then [] else [abilities[0].name] + AbilityNames(abilities[1..])
  }

  /**
   * The list LoadDefaultAbilities builds before loading assets: BasicAttack
   * first (cooldown 1, range 800 for Ranged and 200 otherwise), then the
   * type's own abilities.
   */
  function DefaultAbilities(t: EnemyType): (r: seq<AbilityDefinition>)
    ensures 2 <= |r| <= 3
    ensures r[0].name == BasicAttackName && r[0].cooldownTime == 1.0
    ensures r[0].range == if t == Ranged then 800.0 else 200.0
  {
    [BasicAttack(t)] + TypeAbilities(t)
  }

  /** Every default ability is named, no name repeats, and none has a class or montage before loading. */
  lemma DefaultAbilitiesWellFormed(t: EnemyType)
    ensures var r := DefaultAbilities(t);
            && (forall i :: 0 <= i < |r| ==> !IsNone(r[i].name) && r[i].abilityClass.None? && r[i].abilityMontage.None?)
            && (forall i, j :: 0 <= i < j < |r| ==> r[i].name != r[j].name)
  {
    DefaultAbilityNamesPerType(t);
    var names := AbilityNames(DefaultAbilities(t));
    assert forall i, j :: 0 <= i < j < |names| ==> names[i] != names[j] by {
      match t
      case Melee =>
      case Ranged =>
      case Support =>
      case Elite =>
      case Boss =>
    }
  }

  /** The default ability names, type by type. */
  lemma DefaultAbilityNamesPerType(t: EnemyType)
    ensures AbilityNames(DefaultAbilities(t)) ==
      match t
      case Melee => ["BasicAttack", "Charge", "Cleave"]
      case Ranged => ["BasicAttack", "PowerShot", "Volley"]
      case Support => ["BasicAttack", "Heal", "Buff"]
      case Elite => ["BasicAttack", "Ultimate"]
      case Boss => ["BasicAttack", "Phase1", "Phase2"]
  {
    var names := AbilityNames(DefaultAbilities(t));
    assert names[0] == "BasicAttack";
  }

  /** FString::RightChop: drop the first `n` characters, or everything when there are fewer. */
  function RightChop(s: string, n: nat): (r: string)
    ensures n <= |s| ==> |r| == |s| - n && r == s[n..]
    ensures n > |s| ==> r == ""
  {
    if n <= |s| then s[n..] else ""
  }

  /** The type segment of every asset path, with the whole "EEnemyType::" prefix removed. */
  function TypeString(t: EnemyType): string
  {
    RightChop(EnumValueString(t), 12)
  }

  /** The type segment as the source computes it, chopping 11 characters. */
  function TypeStringAsWritten(t: EnemyType): string
  {
    RightChop(EnumValueString(t), 11)
  }

  /** With the full prefix removed, the type segment is the enumerator's own name. */
  lemma TypeStringIsTypeName(t: EnemyType)
    ensures TypeString(t) == TypeName(t)
  {
    assert EnumValueString(t)[12..] == TypeName(t);
  }

  /** Chopping 11 characters leaves the second colon of "::" in front of the name. */
  lemma TypeStringAsWrittenKeepsColon(t: EnemyType)
    ensures TypeStringAsWritten(t) == ":" + TypeName(t)
  {
    assert EnumValueString(t)[11..] == ":" + TypeName(t);
  }

  /** The folder every default asset lives under, and the name prefixes of each kind of asset. */
  const EnemiesRoot: string := "/Game/Enemies/"
  const MeshPrefix: string := "SK_"
  const AnimBlueprintPrefix: string := "ABP_"
  const BehaviorTreePrefix: string := "BT_"
  const BlackboardPrefix: string := "BB_"
  const AbilitiesFolder: string := "Abilities"
  const AbilityClassPrefix: string := "GA_"
  const AnimationsFolder: string := "Animations"
  const MontagePrefix: string := "AM_"

  /**
   * "/Game/Enemies/<Dir>/<Prefix><Dir>": the mesh (SK_), animation blueprint
   * (ABP_) and behaviour tree (BT_) paths under the type directory `dir`.
   * The source passes TypeStringAsWritten; the corrected paths pass TypeString.
   */
  function AssetPath(dir: string, prefix: string): (r: string)
    ensures |r| == |EnemiesRoot| + 2 * |dir| + 1 + |prefix|
    ensures r[..|EnemiesRoot|] == EnemiesRoot
  {
    EnemiesRoot + dir + "/" + prefix + dir
  }

  /** "/Game/Enemies/<Dir>/<Folder>/<Prefix><Dir>_<AbilityName>": ability classes (Abilities, GA_) and montages (Animations, AM_). */
  function AbilityAssetPath(dir: string, folder: string, prefix: string, abilityName: Name): (r: string)
    ensures |r| == |EnemiesRoot| + 2 * |dir| + |folder| + |prefix| + |abilityName| + 3
    ensures r[..|EnemiesRoot|] == EnemiesRoot
  {
    EnemiesRoot + dir + "/" + folder + "/" + prefix + dir + "_" + abilityName
  }

  /** For every type and prefix, the path the source builds is two characters longer than the intended one, so it never names the same asset. */
  lemma AsWrittenPathMissesIntended(t: EnemyType, prefix: string)
    ensures |AssetPath(TypeStringAsWritten(t), prefix)| == |AssetPath(TypeString(t), prefix)| + 2
    ensures AssetPath(TypeStringAsWritten(t), prefix) != AssetPath(TypeString(t), prefix)
  {
    TypeStringIsTypeName(t);
    TypeStringAsWrittenKeepsColon(t);
  }

  /** The same holds for the ability class and montage paths. */
  lemma AsWrittenAbilityPathMissesIntended(t: EnemyType, folder: string, prefix: string, abilityName: Name)
    ensures |AbilityAssetPath(TypeStringAsWritten(t), folder, prefix, abilityName)|
            == |AbilityAssetPath(TypeString(t), folder, prefix, abilityName)| + 2
    ensures AbilityAssetPath(TypeStringAsWritten(t), folder, prefix, abilityName)
            != AbilityAssetPath(TypeString(t), folder, prefix, abilityName)
  {
    TypeStringIsTypeName(t);
    TypeStringAsWrittenKeepsColon(t);
  }

  /** The mesh path the source builds for a melee enemy, next to the intended one. */
  lemma MeleeMeshPathAsWritten()
    ensures AssetPath(TypeStringAsWritten(Melee), MeshPrefix) == "/Game/Enemies/:Melee/SK_:Melee"
    ensures AssetPath(TypeString(Melee), MeshPrefix) == "/Game/Enemies/Melee/SK_Melee"
  {
    TypeStringIsTypeName(Melee);
    TypeStringAsWrittenKeepsColon(Melee);
    assert TypeString(Melee) == "Melee";
  }

  /** The assets that exist, by object path. */
  type AssetCatalog = map<string, AssetId>

  /** A load: the asset at `path`, or null when there is none. */
  function Load(catalog: AssetCatalog, path: string): (r: AssetRef)
    ensures r.Some? <==> path in catalog
  {
    if path in catalog then Some(catalog[path]) else None
  }

  /** A successful load replaces the reference; a failed one leaves it as it was. */
  function KeepOrLoad(current: AssetRef, loaded: AssetRef): (r: AssetRef)
    ensures r == current || r == loaded
    ensures loaded.Some? ==> r == loaded
  {
    if loaded.Some? then loaded else current
  }

  /** One iteration of the asset loop of LoadDefaultAbilities. */
  function WithAbilityAssets(a: AbilityDefinition, dir: string, catalog: AssetCatalog): AbilityDefinition
  {
    a.(abilityClass := KeepOrLoad(a.abilityClass, Load(catalog, AbilityAssetPath(dir, AbilitiesFolder, AbilityClassPrefix, a.name))),
       abilityMontage := KeepOrLoad(a.abilityMontage, Load(catalog, AbilityAssetPath(dir, AnimationsFolder, MontagePrefix, a.name))))
  }

  /** The asset loop over a whole list: only class and montage change; length, order and every other field are kept. */
  function LoadAbilityAssets(abilities: seq<AbilityDefinition>, dir: string, catalog: AssetCatalog): (r: seq<AbilityDefinition>)
    ensures |r| == |abilities|
    ensures forall i :: 0 <= i < |r| ==> r[i] == WithAbilityAssets(abilities[i], dir, catalog)
    ensures forall i :: 0 <= i < |r| ==>
              r[i].(abilityClass := abilities[i].abilityClass, abilityMontage := abilities[i].abilityMontage) == abilities[i]
  {
    if abilities == [] then []
    else [WithAbilityAssets(abilities[0], dir, catalog)] + LoadAbilityAssets(abilities[1..], dir, catalog)
  }

  /** Mesh, animation blueprint and behaviour tree loaded from the paths under `dir`, each kept when its load fails. */
  function WithTypeAssets(tpl: Template, dir: string, catalog: AssetCatalog): Template
  {
    var visuals := tpl.visuals.(
      skeletalMesh := KeepOrLoad(tpl.visuals.skeletalMesh, Load(catalog, AssetPath(dir, MeshPrefix))),
      animationBlueprint := KeepOrLoad(tpl.visuals.animationBlueprint, Load(catalog, AssetPath(dir, AnimBlueprintPrefix))));
    var ai := tpl.aiConfig.(behaviorTree := KeepOrLoad(tpl.aiConfig.behaviorTree, Load(catalog, AssetPath(dir, BehaviorTreePrefix))));
    tpl.(visuals := visuals, aiConfig := ai)
  }

  /** The type's default abilities with their assets loaded from under `dir`. */
  function LoadedDefaultAbilities(t: EnemyType, dir: string, catalog: AssetCatalog): seq<AbilityDefinition>
  {
    LoadAbilityAssets(DefaultAbilities(t), dir, catalog)
  }

  /** The type's assets, then the default abilities with theirs, all from under `dir`. */
  function WithDefaultAssets(tpl: Template, t: EnemyType, dir: string, catalog: AssetCatalog): Template
  {
    WithTypeAssets(tpl, dir, catalog).(abilities := LoadedDefaultAbilities(t, dir, catalog))
  }

  /** The type's stats, AI, tag and scale, then its default assets from under `dir`. */
  function InitializedDefaults(tpl: Template, t: EnemyType, dir: string, catalog: AssetCatalog): Template
  {
    var typed := tpl.(
      baseStats := TypeStats(t),
      aiConfig := WithTypeAI(tpl.aiConfig, t),
      tags := tpl.tags + {TypeTag(t)},
      visuals := tpl.visuals.(scale := UniformVector(TypeScale(t))));
    WithDefaultAssets(typed, t, dir, catalog)
  }

  /**
   * What CreateNewEnemyTemplate validates: a new template named after the
   * string, with the type's defaults, assets looked up under the directory
   * the source computes.
   */
  function CreatedTemplate(templateName: string, t: EnemyType, catalog: AssetCatalog): Template
  {
    InitializedDefaults(NewTemplate().(name := templateName, displayName := templateName), t, TypeStringAsWritten(t), catalog)
  }

  /**
   * A mesh stored at the intended path is never loaded: creating a template
   * against a catalog holding only that mesh leaves the template without one.
   */
  lemma IntendedMeshNeverLoads(templateName: string, t: EnemyType, mesh: AssetId)
    ensures CreatedTemplate(templateName, t, map[AssetPath(TypeString(t), MeshPrefix) := mesh]).visuals.skeletalMesh.None?
  {
    AsWrittenPathMissesIntended(t, MeshPrefix);
  }

  /**
   * The defaults keep everything ValidateTemplate needs to pass except the
   * blackboard: nothing in them ever sets it, so the checks always fail.
   */
  lemma CreatedTemplateAlwaysFailsChecks(templateName: string, t: EnemyType, catalog: AssetCatalog)
    ensures CreatedTemplate(templateName, t, catalog).aiConfig.blackboard.None?
    ensures CheckErrors(CreatedTemplate(templateName, t, catalog)) != []
  {
  }

  /** The blackboard load the defaults lack: "/Game/Enemies/<Dir>/BB_<Dir>". */
  function WithDefaultBlackboard(tpl: Template, dir: string, catalog: AssetCatalog): Template
  {
    tpl.(aiConfig := tpl.aiConfig.(blackboard := KeepOrLoad(tpl.aiConfig.blackboard, Load(catalog, AssetPath(dir, BlackboardPrefix)))))
  }

  /**
   * The intended creation: every asset looked up under the type's own name
   * (TypeString), and the default blackboard loaded as well.
   */
  function CreatedTemplateWithBlackboard(templateName: string, t: EnemyType, catalog: AssetCatalog): Template
  {
    var initialized := InitializedDefaults(NewTemplate().(name := templateName, displayName := templateName), t, TypeString(t), catalog);
    WithDefaultBlackboard(initialized, TypeString(t), catalog)
  }

  /** The catalog holds the type's mesh, behaviour tree, blackboard and every default ability's class at their intended paths. */
  predicate CatalogComplete(catalog: AssetCatalog, t: EnemyType)
  {
    && AssetPath(TypeString(t), MeshPrefix) in catalog
    && AssetPath(TypeString(t), BehaviorTreePrefix) in catalog
    && AssetPath(TypeString(t), BlackboardPrefix) in catalog
    && forall i :: 0 <= i < |DefaultAbilities(t)| ==>
         AbilityAssetPath(TypeString(t), AbilitiesFolder, AbilityClassPrefix, DefaultAbilities(t)[i].name) in catalog
  }

  /**
   * With the blackboard loaded, a named template whose catalog holds all
   * its default assets passes every check, so creation succeeds.
   */
  lemma CreatedTemplateWithBlackboardPasses(templateName: string, t: EnemyType, catalog: AssetCatalog)
    requires templateName != NoName && CatalogComplete(catalog, t)
    ensures LocallyValid(CreatedTemplateWithBlackboard(templateName, t, catalog))
  {
    var tpl := CreatedTemplateWithBlackboard(templateName, t, catalog);
    var defaults := DefaultAbilities(t);
    DefaultAbilitiesWellFormed(t);
    assert tpl.abilities == LoadAbilityAssets(defaults, TypeString(t), catalog);
    forall i | 0 <= i < |tpl.abilities|
      ensures AbilityComplete(tpl.abilities[i])
    {
      assert tpl.abilities[i] == WithAbilityAssets(defaults[i], TypeString(t), catalog);
    }
  }

  /** Validating a created template always reports an error. */
  lemma CreatedTemplateReportHasErrors(templates: Templates, id: TemplateId, templateName: string, t: EnemyType, catalog: AssetCatalog)
    requires id in templates && templates[id] == CreatedTemplate(templateName, t, catalog)
    ensures ReachesRoot(templates, id)
    ensures TemplateReport(templates, id).errors != []
  {
    ParentlessReachesRoot(templates, id);
    CreatedTemplateAlwaysFailsChecks(templateName, t, catalog);
  }

  /** A template without a parent reaches a root at once. */
  lemma ParentlessReachesRoot(templates: Templates, id: TemplateId)
    requires id in templates && templates[id].parent.None?
    ensures ReachesRoot(templates, id)
    ensures InheritedErrors(templates, id) == []
  {
    InheritanceChainShape(templates, id);
  }

  /** The stat, AI, tag and scale switches of InitializeTemplateDefaults, then LoadDefaultAssets; a null template changes nothing. */
  method InitializeTemplateDefaults(arena: TemplateArena, template: Option<TemplateId>, t: EnemyType, catalog: AssetCatalog)
    requires template.Some? ==> template.value in arena.templates
    modifies arena
    ensures arena.nextId == old(arena.nextId)
    ensures template.None? ==> arena.templates == old(arena.templates)
    ensures template.Some? ==>
              arena.templates == old(arena.templates)[template.value :=
                InitializedDefaults(old(arena.templates[template.value]), t, TypeStringAsWritten(t), catalog)]
  {
    if template.None? {
      return;
    }
    var id := template.value;
    var tpl := arena.templates[id];
    tpl := tpl.(baseStats := TypeStats(t));
    tpl := tpl.(aiConfig := WithTypeAI(tpl.aiConfig, t));
    tpl := tpl.(tags := tpl.tags + {TypeTag(t)});
    tpl := tpl.(visuals := tpl.visuals.(scale := UniformVector(TypeScale(t))));
    arena.templates := arena.templates[id := tpl];
    LoadDefaultAssets(arena, template, t, catalog);
  }

  /**
   * LoadDefaultAssets: mesh, animation blueprint and behaviour tree from
   * under the directory chopped from the enumerator string, each kept when
   * its load fails; then LoadDefaultAbilities.
   */
  method LoadDefaultAssets(arena: TemplateArena, template: Option<TemplateId>, t: EnemyType, catalog: AssetCatalog)
    requires template.Some? ==> template.value in arena.templates
    modifies arena
    ensures arena.nextId == old(arena.nextId)
    ensures template.None? ==> arena.templates == old(arena.templates)
    ensures template.Some? ==>
              arena.templates == old(arena.templates)[template.value :=
                WithDefaultAssets(old(arena.templates[template.value]), t, TypeStringAsWritten(t), catalog)]
  {
    if template.None? {
      return;
    }
    var typeString := TypeStringAsWritten(t);
    var id := template.value;
    var tpl := LoadTypeAssets(arena.templates[id], typeString, catalog);
    arena.templates := arena.templates[id := tpl];
    LoadDefaultAbilities(arena, template, t, catalog);
  }

  /** The three loads of LoadDefaultAssets on one template: each field is replaced only when its asset loads. */
  method LoadTypeAssets(tpl: Template, dir: string, catalog: AssetCatalog) returns (r: Template)
    ensures r == WithTypeAssets(tpl, dir, catalog)
  {
    r := tpl;
    var mesh := Load(catalog, AssetPath(dir, MeshPrefix));
    if mesh.Some? {
      r := r.(visuals := r.visuals.(skeletalMesh := mesh));
    }
    var animBlueprint := Load(catalog, AssetPath(dir, AnimBlueprintPrefix));
    if animBlueprint.Some? {
      r := r.(visuals := r.visuals.(animationBlueprint := animBlueprint));
    }
    var behaviorTree := Load(catalog, AssetPath(dir, BehaviorTreePrefix));
    if behaviorTree.Some? {
      r := r.(aiConfig := r.aiConfig.(behaviorTree := behaviorTree));
    }
  }

  /**
   * LoadDefaultAbilities: replace the list by the type's defaults, then load
   * each ability's class and montage from under the chopped directory.
   */
  method LoadDefaultAbilities(arena: TemplateArena, template: Option<TemplateId>, t: EnemyType, catalog: AssetCatalog)
    requires template.Some? ==> template.value in arena.templates
    modifies arena
    ensures arena.nextId == old(arena.nextId)
    ensures template.None? ==> arena.templates == old(arena.templates)
    ensures template.Some? ==>
              arena.templates == old(arena.templates)[template.value :=
                old(arena.templates[template.value]).(abilities := LoadedDefaultAbilities(t, TypeStringAsWritten(t), catalog))]
  {
    if template.None? {
      return;
    }
    var abilities := [BasicAttack(t)];
    abilities := abilities + TypeAbilities(t);
    var loaded := LoadAbilityAssetList(abilities, TypeStringAsWritten(t), catalog);
    var id := template.value;
    arena.templates := arena.templates[id := arena.templates[id].(abilities := loaded)];
  }

  /** The asset loop of LoadDefaultAbilities: each ability's class, then its montage, replaced only when it loads. */
  method LoadAbilityAssetList(abilities: seq<AbilityDefinition>, dir: string, catalog: AssetCatalog)
    returns (loaded: seq<AbilityDefinition>)
    ensures loaded == LoadAbilityAssets(abilities, dir, catalog)
  {
    loaded := abilities;
    for i := 0 to |loaded|
      invariant |loaded| == |abilities|
      invariant forall j :: 0 <= j < i ==> loaded[j] == WithAbilityAssets(abilities[j], dir, catalog)
      invariant forall j :: i <= j < |loaded| ==> loaded[j] == abilities[j]
    {
      var ability := loaded[i];
      var abilityClass := Load(catalog, AbilityAssetPath(dir, AbilitiesFolder, AbilityClassPrefix, ability.name));
      if abilityClass.Some? {
        ability := ability.(abilityClass := abilityClass);
      }
      var montage := Load(catalog, AbilityAssetPath(dir, AnimationsFolder, MontagePrefix, ability.name));
      if montage.Some? {
        ability := ability.(abilityMontage := montage);
      }
      loaded := loaded[i := ability];
    }
  }

  /**
   * CreateNewEnemyTemplate: a new template named after the string, given
   * the type's defaults and validated; null when validation fails. Since
   * the defaults never set a blackboard, it always returns null.
   */
  method CreateNewEnemyTemplate(arena: TemplateArena, templateName: string, t: EnemyType, catalog: AssetCatalog)
    returns (created: Option<TemplateId>)
    requires arena.Valid()
    modifies arena
    ensures arena.Valid()
    ensures arena.templates == old(arena.templates)[old(arena.nextId) := CreatedTemplate(templateName, t, catalog)]
    ensures created.None?
  {
    var id := arena.NewObject();
    arena.templates := arena.templates[id := arena.templates[id].(name := templateName, displayName := templateName)];
    assert arena.templates == old(arena.templates)[id := NewTemplate().(name := templateName, displayName := templateName)];
    InitializeTemplateDefaults(arena, Some(id), t, catalog);
    var templates := arena.templates;
    assert templates == old(arena.templates)[id := CreatedTemplate(templateName, t, catalog)];
    assert arena.Valid();
    CreatedTemplateReportHasErrors(templates, id, templateName, t, catalog);
    var result := new ValidationResult();
    var ok := ValidateTemplate(templates, id, result);
    created := if ok then Some(id) else None;
  }
}
