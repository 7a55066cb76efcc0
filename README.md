# Enemy templates

A model of the data layer of an Unreal Engine enemy-template editor. An
enemy template holds a name and a display name, an optional parent
template, base stats, an AI configuration, visual customisation and a list
of abilities. The model covers five parts:

- the validation-result accumulator (`EnemyTemplateTypes`);
- the template inheritance chain with its cache, and child cloning
  (`EnemyTemplate`);
- the ordered template validation (`TemplateValidation`), which checks the
  name, then the parent recursively, then visuals, AI and abilities;
- the merge of a template with an enemy's modifications (`TemplateMerge`)
  and the enemy configuration that holds them (`EnemyConfiguration`);
- the per-type defaults the creator tool fills a new template with
  (`EnemyCreatorTool`).

Templates live in an arena, a map from ids to template records, held by
the `TemplateArena` class. A parent link that names no template of the
arena reads as null. The inheritance walk is proved to end and to collect
no template twice, cycles included. Validation recurses into the parent
without a cycle guard, so it requires an acyclic chain (`ReachesRoot`). It
is specified by the pure function `TemplateReport`. The merge is specified
by `EffectiveConfiguration`. Of that configuration only the visuals, the
AI configuration and the abilities reach the instance (`Reached`): the
multiplied stats are computed and then dropped. Each method that changes
state or loops is proved against these functions.

Asset references are optional ids. Asset loading is a catalog: a map from
object path to the asset that exists there. The default asset paths are
built from a type directory. The creator tool's loads use the directory the
source computes, `TypeStringAsWritten`: the enumerator string with eleven
characters chopped, which keeps a colon in front of the type name. The
corrected creation (`CreatedTemplateWithBlackboard`) uses `TypeString`, the
bare type name.

## Model

| member | source | states |
|---|---|---|
| EnemyTemplateTypes.DefaultBaseStats | UE_Pattern_Libraries/Enemy_Pattern_Library/Tools/EnemyCreator/Implementation/Headers/EnemyTemplateTypes.h:17-41 | the default stats lie within the declared clamps: critical chance in [0,1], critical multiplier at least 1, every other stat positive |
| EnemyTemplateTypes.DefaultAbility | UE_Pattern_Libraries/Enemy_Pattern_Library/Tools/EnemyCreator/Implementation/Headers/EnemyTemplateTypes.h:71-107 | a default ability is unnamed, with cooldown 0, range 100 and cost 0; it is not passive, and it has no class, montage or effects |
| EnemyTemplateTypes.DefaultAIConfig | UE_Pattern_Libraries/Enemy_Pattern_Library/Tools/EnemyCreator/Implementation/Headers/EnemyTemplateTypes.h:117-146 | default aggression lies in [0,1]; no behaviour tree and no blackboard |
| EnemyTemplateTypes.DefaultVisualCustomization | UE_Pattern_Libraries/Enemy_Pattern_Library/Tools/EnemyCreator/Implementation/Headers/EnemyTemplateTypes.h:156-183 | no mesh and no animation blueprint; scale is the unit vector |
| EnemyTemplateTypes.DefaultModification | UE_Pattern_Libraries/Enemy_Pattern_Library/Tools/EnemyCreator/Implementation/Headers/EnemyTemplateTypes.h:193-210 | a default modification has no stat multipliers and no ability overrides |
| EnemyTemplateTypes.ValidationResult.constructor | UE_Pattern_Libraries/Enemy_Pattern_Library/Tools/EnemyCreator/Implementation/Headers/EnemyTemplateTypes.h:220-229 | a fresh result is invalid with both lists empty, so it is not consistent until cleared |
| EnemyTemplateTypes.ValidationResult.AddError | UE_Pattern_Libraries/Enemy_Pattern_Library/Tools/EnemyCreator/Implementation/Headers/EnemyTemplateTypes.h:232 | appends the error at the end, leaves warnings alone, marks the result invalid and makes it consistent (valid exactly when there are no errors) |
| EnemyTemplateTypes.ValidationResult.AddWarning | UE_Pattern_Libraries/Enemy_Pattern_Library/Tools/EnemyCreator/Implementation/Headers/EnemyTemplateTypes.h:235 | appends the warning at the end; errors and the valid flag are unchanged, so consistency is preserved |
| EnemyTemplateTypes.ValidationResult.Clear | UE_Pattern_Libraries/Enemy_Pattern_Library/Tools/EnemyCreator/Implementation/Headers/EnemyTemplateTypes.h:238 | valid, with both lists empty |
| EnemyTemplate.NewTemplate | UE_Pattern_Libraries/EnemyCreatorTools/EnemyCreator/Implementation/Source/EnemyTemplate.cpp:5-12 | a new template is dirty, has an empty cached chain and no parent, and carries the default stats, AI, visuals and no abilities |
| EnemyTemplate.ParentOf | UE_Pattern_Libraries/EnemyCreatorTools/EnemyCreator/Implementation/Source/EnemyTemplate.cpp:143-147 | the parent read during the walk: present only when it is set and names a template of the arena |
| EnemyTemplate.ChainFrom | UE_Pattern_Libraries/EnemyCreatorTools/EnemyCreator/Implementation/Source/EnemyTemplate.cpp:141-153 | the walk keeps the already collected entries as a prefix, appends the current template next, and collects only templates of the arena |
| EnemyTemplate.InheritanceChain | UE_Pattern_Libraries/EnemyCreatorTools/EnemyCreator/Implementation/Source/EnemyTemplate.cpp:138-158 | the chain starts with the template itself and holds only templates of the arena |
| EnemyTemplate.ChainFromLinks | UE_Pattern_Libraries/EnemyCreatorTools/EnemyCreator/Implementation/Source/EnemyTemplate.cpp:143-147 | in the walk every entry after the prefix is followed by its parent |
| EnemyTemplate.ChainFromDistinct | UE_Pattern_Libraries/EnemyCreatorTools/EnemyCreator/Implementation/Source/EnemyTemplate.cpp:148-152 | the walk never collects a template twice |
| EnemyTemplate.ChainFromEnd | UE_Pattern_Libraries/EnemyCreatorTools/EnemyCreator/Implementation/Source/EnemyTemplate.cpp:143-153 | the walk stops only when the last parent is null or already collected |
| EnemyTemplate.InheritanceChainShape | UE_Pattern_Libraries/EnemyCreatorTools/EnemyCreator/Implementation/Source/EnemyTemplate.cpp:141-153 | first entry is the template, a parentless template gives exactly itself, each entry is followed by its parent, no entry repeats (so the walk ends even on a cycle, after at most as many steps as there are templates), and it ends exactly at a null or already-collected parent |
| EnemyTemplate.ChainFromSuffix | UE_Pattern_Libraries/EnemyCreatorTools/EnemyCreator/Implementation/Source/EnemyTemplate.cpp:143-153 | on an acyclic chain the walk does not depend on which earlier entries were collected: only the suffix changes |
| EnemyTemplate.ParentChain | UE_Pattern_Libraries/EnemyCreatorTools/EnemyCreator/Implementation/Source/EnemyTemplate.cpp:30-41 | on an acyclic chain, the chain of a template is itself followed by its parent's chain, and the parent is acyclic too |
| EnemyTemplate.SelfParentIsCyclic | UE_Pattern_Libraries/EnemyCreatorTools/EnemyCreator/Implementation/Source/EnemyTemplate.cpp:148-152 | a template that is its own parent gives the chain [itself] and is not acyclic, so validation cannot recurse on it |
| EnemyTemplate.ComputeInheritanceChain | UE_Pattern_Libraries/EnemyCreatorTools/EnemyCreator/Implementation/Source/EnemyTemplate.cpp:141-153 | the while loop computes exactly the inheritance chain |
| EnemyTemplate.ChildOf | UE_Pattern_Libraries/EnemyCreatorTools/EnemyCreator/Implementation/Source/EnemyTemplate.cpp:121-134 | the child has the source as parent and the given name, the source's stats, AI, visuals and abilities, empty display name, description and tags, and starts dirty |
| EnemyTemplate.TemplateArena.constructor | UE_Pattern_Libraries/EnemyCreatorTools/EnemyCreator/Implementation/Source/EnemyTemplate.cpp:5-12 | an empty arena |
| EnemyTemplate.TemplateArena.NewObject | UE_Pattern_Libraries/EnemyCreatorTools/EnemyCreator/Implementation/Source/EnemyTemplate.cpp:5-12 | allocates a fresh id holding a new template; nothing else changes |
| EnemyTemplate.TemplateArena.GetInheritanceChain | UE_Pattern_Libraries/EnemyCreatorTools/EnemyCreator/Implementation/Source/EnemyTemplate.cpp:136-159 | when dirty, returns the computed chain, caches it and clears the flag; when clean, returns the cached chain and changes nothing |
| EnemyTemplate.TemplateArena.CreateChildTemplate | UE_Pattern_Libraries/EnemyCreatorTools/EnemyCreator/Implementation/Source/EnemyTemplate.cpp:121-134 | adds one fresh template, the child of the source; the source and every other template are unchanged, and the child's chain starts [child, source] |
| TemplateValidation.IndexOf | UE_Pattern_Libraries/Enemy_Pattern_Library/Tools/EnemyCreator/Implementation/Source/EnemyTemplate.cpp:204-210 | the index reported for an unnamed ability is that of the first entry equal to it |
| TemplateValidation.EntryErrorsEmptyIff | UE_Pattern_Libraries/Enemy_Pattern_Library/Tools/EnemyCreator/Implementation/Source/EnemyTemplate.cpp:202-222 | one ability yields no error exactly when it is named and has a class |
| TemplateValidation.AbilityErrorsEmptyIff | UE_Pattern_Libraries/Enemy_Pattern_Library/Tools/EnemyCreator/Implementation/Source/EnemyTemplate.cpp:198-224 | the ability check reports nothing exactly when every ability is named and has a class |
| TemplateValidation.EntryErrorsKept | UE_Pattern_Libraries/Enemy_Pattern_Library/Tools/EnemyCreator/Implementation/Source/EnemyTemplate.cpp:200-222 | the errors of one ability stay among the errors of any longer prefix |
| TemplateValidation.AbilityErrorsReportEveryAbility | UE_Pattern_Libraries/Enemy_Pattern_Library/Tools/EnemyCreator/Implementation/Source/EnemyTemplate.cpp:198-224 | every unnamed ability is reported (with the index of the first equal entry) and every classless ability is reported by name; the loop does not stop at the first failure |
| TemplateValidation.AbilityErrorsKinds | UE_Pattern_Libraries/Enemy_Pattern_Library/Tools/EnemyCreator/Implementation/Source/EnemyTemplate.cpp:198-224 | the ability check reports only missing-name and missing-class errors |
| TemplateValidation.CheckErrorsEmptyIff | UE_Pattern_Libraries/Enemy_Pattern_Library/Tools/EnemyCreator/Implementation/Source/EnemyTemplate.cpp:44-59 | the asset stages report nothing exactly when mesh, behaviour tree, blackboard and every ability's name and class are present |
| TemplateValidation.MissingMeshStopsChecks | UE_Pattern_Libraries/Enemy_Pattern_Library/Tools/EnemyCreator/Implementation/Source/EnemyTemplate.cpp:44-47 | without a mesh the only stage error is the mesh error, and no AI or ability check runs |
| TemplateValidation.MissingAIAssetStopsChecks | UE_Pattern_Libraries/Enemy_Pattern_Library/Tools/EnemyCreator/Implementation/Source/EnemyTemplate.cpp:50-53 | with a mesh but without a behaviour tree or blackboard, the single stage error is the first missing one, and abilities are not checked |
| TemplateValidation.DisplayNameOnlyWarns | UE_Pattern_Libraries/EnemyCreatorTools/EnemyCreator/Implementation/Source/EnemyTemplate.cpp:24-27 | changing a template's display name never changes its errors |
| TemplateValidation.SameParentsSameChain | UE_Pattern_Libraries/EnemyCreatorTools/EnemyCreator/Implementation/Source/EnemyTemplate.cpp:141-153 | the chain depends only on the arena's keys and parent links |
| TemplateValidation.SameParentsSameReport | UE_Pattern_Libraries/EnemyCreatorTools/EnemyCreator/Implementation/Source/EnemyTemplate.cpp:14-61 | arenas that differ only in display names give the same errors |
| TemplateValidation.AllLocallyValidCons | UE_Pattern_Libraries/EnemyCreatorTools/EnemyCreator/Implementation/Source/EnemyTemplate.cpp:14-61 | a chain is locally valid throughout exactly when its head and its tail are |
| TemplateValidation.ReportErrorsEmptyIff | UE_Pattern_Libraries/EnemyCreatorTools/EnemyCreator/Implementation/Source/EnemyTemplate.cpp:14-61 | a template has no errors exactly when it is named, its asset stages pass, and its parent (if any) has no errors |
| TemplateValidation.ValidIffChainLocallyValid | UE_Pattern_Libraries/EnemyCreatorTools/EnemyCreator/Implementation/Source/EnemyTemplate.cpp:14-61 | a template validates exactly when every template on its inheritance chain is named and asset-complete |
| TemplateValidation.SelfParentGuardedValidity | UE_Pattern_Libraries/EnemyCreatorTools/EnemyCreator/Implementation/Source/EnemyTemplate.cpp:30-41 | on the cycle-guarded chain a template that is its own parent is valid exactly when it passes its own checks |
| TemplateValidation.ParentIsCloserToRoot | UE_Pattern_Libraries/EnemyCreatorTools/EnemyCreator/Implementation/Source/EnemyTemplate.cpp:30-41 | the parent of an acyclic template is in the arena, acyclic, and has a strictly shorter chain, so the recursion terminates |
| TemplateValidation.ValidateVisualAssets | UE_Pattern_Libraries/Enemy_Pattern_Library/Tools/EnemyCreator/Implementation/Source/EnemyTemplate.cpp:161-177 | returns whether the mesh is present; appends the mesh error or nothing, and the animation-blueprint warning when that is missing |
| TemplateValidation.ValidateAIConfiguration | UE_Pattern_Libraries/Enemy_Pattern_Library/Tools/EnemyCreator/Implementation/Source/EnemyTemplate.cpp:179-196 | returns whether both AI assets are present; appends the behaviour-tree error, else the blackboard error, else nothing |
| TemplateValidation.ValidateAbilities | UE_Pattern_Libraries/Enemy_Pattern_Library/Tools/EnemyCreator/Implementation/Source/EnemyTemplate.cpp:198-224 | returns whether the ability check found nothing; appends its errors in ability order |
| TemplateValidation.ValidateStages | UE_Pattern_Libraries/EnemyCreatorTools/EnemyCreator/Implementation/Source/EnemyTemplate.cpp:44-59 | the visual, AI and ability stages in order with short-circuit; the appended errors are exactly the stage errors |
| TemplateValidation.ValidateTemplate | UE_Pattern_Libraries/EnemyCreatorTools/EnemyCreator/Implementation/Source/EnemyTemplate.cpp:14-62 | the errors and warnings are exactly the template's report (identity, wrapped parent errors, stages) and the result is true exactly when there are no errors |
| TemplateMerge.StatNamesDistinct | UE_Pattern_Libraries/EnemyCreatorTools/EnemyCreator/Implementation/Source/EnemyTemplate.cpp:77 | two stat fields have the same name only when they are the same field |
| TemplateMerge.StatFieldNamed | UE_Pattern_Libraries/EnemyCreatorTools/EnemyCreator/Implementation/Source/EnemyTemplate.cpp:77 | a resolved stat name names that field; an unresolved name names no field |
| TemplateMerge.SetStat | UE_Pattern_Libraries/EnemyCreatorTools/EnemyCreator/Implementation/Source/EnemyTemplate.cpp:77-81 | writes one stat field and keeps all others |
| TemplateMerge.StatsEqual | UE_Pattern_Libraries/EnemyCreatorTools/EnemyCreator/Implementation/Source/EnemyTemplate.cpp:72-83 | stat records agreeing on every field are equal |
| TemplateMerge.MultipliedStatsField | UE_Pattern_Libraries/EnemyCreatorTools/EnemyCreator/Implementation/Source/EnemyTemplate.cpp:72-83 | each effective stat is the base stat times the product of the multipliers keyed by its name |
| TemplateMerge.MultipliedStatsUnique | UE_Pattern_Libraries/EnemyCreatorTools/EnemyCreator/Implementation/Source/EnemyTemplate.cpp:72-83 | the effective stats are the only record with that per-field property |
| TemplateMerge.EffectiveAbilities | UE_Pattern_Libraries/EnemyCreatorTools/EnemyCreator/Implementation/Source/EnemyTemplate.cpp:101-116 | the effective abilities keep the template's length and order, each replaced by the override under its name when there is one |
| TemplateMerge.NoModificationKeepsTemplate | UE_Pattern_Libraries/EnemyCreatorTools/EnemyCreator/Implementation/Source/EnemyTemplate.cpp:72-116 | without a modification the effective configuration is the template's own |
| TemplateMerge.EmptyModificationKeepsStatsAndAbilities | UE_Pattern_Libraries/EnemyCreatorTools/EnemyCreator/Implementation/Source/EnemyTemplate.cpp:72-116 | a modification with no multipliers and no overrides keeps stats and abilities and takes its visuals and AI wholesale |
| TemplateMerge.OtherKeysKeepMultiplier | UE_Pattern_Libraries/EnemyCreatorTools/EnemyCreator/Implementation/Source/EnemyTemplate.cpp:72-83 | a multiplier under another stat's name does not affect this stat |
| TemplateMerge.UnresolvedMultiplierIgnored | UE_Pattern_Libraries/EnemyCreatorTools/EnemyCreator/Implementation/Source/EnemyTemplate.cpp:72-83 | a multiplier key naming no stat has no effect on the effective stats |
| TemplateMerge.UnmatchedOverrideInert | UE_Pattern_Libraries/EnemyCreatorTools/EnemyCreator/Implementation/Source/EnemyTemplate.cpp:101-116 | an override key matching no template ability never changes the effective abilities |
| TemplateMerge.OverrideRemovalKeepsAbility | UE_Pattern_Libraries/EnemyCreatorTools/EnemyCreator/Implementation/Source/EnemyTemplate.cpp:107-114 | removing an override under another name does not change an ability |
| TemplateMerge.AppliedAbilitiesComeFromTemplate | UE_Pattern_Libraries/EnemyCreatorTools/EnemyCreator/Implementation/Source/EnemyTemplate.cpp:101-116 | every effective ability is the template's ability or the override stored under its name |
| TemplateMerge.DoubleDamageExample | UE_Pattern_Libraries/EnemyCreatorTools/EnemyCreator/Implementation/Source/EnemyTemplate.cpp:72-83 | a "Damage" multiplier of 2 on default stats doubles damage to 40 and leaves health at 100 |
| TemplateMerge.MultiplyStep | UE_Pattern_Libraries/EnemyCreatorTools/EnemyCreator/Implementation/Source/EnemyTemplate.cpp:75-82 | one loop step multiplies in exactly the factor of the visited key |
| TemplateMerge.ApplyStatMultipliers | UE_Pattern_Libraries/EnemyCreatorTools/EnemyCreator/Implementation/Source/EnemyTemplate.cpp:72-83 | the in-place multiplication loop yields exactly the effective stats, whatever the key order |
| TemplateMerge.ApplyAbilities | UE_Pattern_Libraries/EnemyCreatorTools/EnemyCreator/Implementation/Source/EnemyTemplate.cpp:101-116 | the ability loop yields exactly the effective abilities |
| TemplateMerge.Reached | UE_Pattern_Libraries/EnemyCreatorTools/EnemyCreator/Implementation/Source/EnemyTemplate.cpp:86-116 | what reaches an instance: the effective visuals and AI configuration, and the effective abilities exactly when the instance has an ability system (none otherwise); no stats |
| TemplateMerge.StatMultipliersNeverReachInstance | UE_Pattern_Libraries/EnemyCreatorTools/EnemyCreator/Implementation/Source/EnemyTemplate.cpp:72-99 | replacing the stat multipliers by any other map leaves what reaches the instance unchanged |
| TemplateMerge.StatMultipliersChangeEffectiveStats | UE_Pattern_Libraries/EnemyCreatorTools/EnemyCreator/Implementation/Source/EnemyTemplate.cpp:72-83 | the multipliers do change the effective stats the call computes: a "Damage" multiplier of 2 on default stats moves them off the base stats |
| TemplateMerge.ApplyToInstance | UE_Pattern_Libraries/EnemyCreatorTools/EnemyCreator/Implementation/Source/EnemyTemplate.cpp:64-119 | false and nothing applied for a null instance; otherwise true, passing on the effective visuals and AI, and the effective abilities only when the instance has an ability system; the effective stats are computed and discarded, never applied |
| EnemyConfiguration.InitializedConfigurationIsTemplate | UE_Pattern_Libraries/EnemyCreatorTools/EnemyCreator/Implementation/Source/EnemyConfiguration.cpp:13-26 | right after initialisation from a template the effective configuration is the template's own stats, visuals, AI and abilities |
| EnemyConfiguration.InitializedConfigurationValidIff | UE_Pattern_Libraries/EnemyCreatorTools/EnemyCreator/Implementation/Source/EnemyConfiguration.cpp:47-116 | a freshly initialised configuration validates exactly when its template does |
| EnemyConfiguration.ValidOverridesTakeEffect | UE_Pattern_Libraries/EnemyCreatorTools/EnemyCreator/Implementation/Source/EnemyConfiguration.cpp:87-116 | in a valid configuration every override replaces some ability of the template |
| EnemyConfiguration.FindAbilityNamed | UE_Pattern_Libraries/EnemyCreatorTools/EnemyCreator/Implementation/Source/EnemyConfiguration.cpp:96-104 | the search loop finds the name exactly when some template ability carries it |
| EnemyConfiguration.EnemyConfiguration.constructor | UE_Pattern_Libraries/EnemyCreatorTools/EnemyCreator/Implementation/Source/EnemyConfiguration.cpp:5-27 | no base template and an empty modification |
| EnemyConfiguration.EnemyConfiguration.InitializeFromTemplate | UE_Pattern_Libraries/EnemyCreatorTools/EnemyCreator/Implementation/Source/EnemyConfiguration.cpp:5-27 | null leaves everything unchanged; otherwise sets the base template, empties multipliers and overrides, and copies the template's AI, visuals and tags |
| EnemyConfiguration.EnemyConfiguration.ApplyConfiguration | UE_Pattern_Libraries/EnemyCreatorTools/EnemyCreator/Implementation/Source/EnemyConfiguration.cpp:29-45 | true exactly when the enemy is present and the base template resolves, in which case what reaches the enemy is the template's visuals, AI and abilities under these modifications (the multiplied stats are not applied) |
| EnemyConfiguration.EnemyConfiguration.ValidateConfiguration | UE_Pattern_Libraries/EnemyCreatorTools/EnemyCreator/Implementation/Source/EnemyConfiguration.cpp:47-117 | true exactly when the template resolves and validates, every multiplier is positive and every override key names a template ability; otherwise the single error is the first failing check's (no base template; the template's own result; a non-positive multiplier; a None or unknown override key) |
| EnemyCreatorTool.TypeStats | UE_Pattern_Libraries/EnemyCreatorTools/EnemyCreator/Implementation/Source/EnemyCreatorTool.cpp:166-218 | for every enemy type the stats respect the declared clamps (critical chance in [0,1], multiplier at least 1) and are positive |
| EnemyCreatorTool.WithTypeAI | UE_Pattern_Libraries/EnemyCreatorTools/EnemyCreator/Implementation/Source/EnemyCreatorTool.cpp:221-258 | for every type the aggression lies in [0,1] and the range is positive; AI assets and parameters are untouched |
| EnemyCreatorTool.TypeScale | UE_Pattern_Libraries/EnemyCreatorTools/EnemyCreator/Implementation/Source/EnemyCreatorTool.cpp:265-279 | scale between 1 and 2, above 1 exactly for Boss and Elite |
| EnemyCreatorTool.AbilityNames | UE_Pattern_Libraries/EnemyCreatorTools/EnemyCreator/Implementation/Source/EnemyCreatorTool.cpp:341-434 | the list of ability names, in order |
| EnemyCreatorTool.DefaultAbilities | UE_Pattern_Libraries/EnemyCreatorTools/EnemyCreator/Implementation/Source/EnemyCreatorTool.cpp:328-434 | the previous abilities are discarded; the first entry is BasicAttack with cooldown 1 and range 800 for Ranged, 200 otherwise; two or three entries |
| EnemyCreatorTool.DefaultAbilitiesWellFormed | UE_Pattern_Libraries/EnemyCreatorTools/EnemyCreator/Implementation/Source/EnemyCreatorTool.cpp:333-431 | every default ability is named and has no class or montage yet, and no name repeats within a type |
| EnemyCreatorTool.DefaultAbilityNamesPerType | UE_Pattern_Libraries/EnemyCreatorTools/EnemyCreator/Implementation/Source/EnemyCreatorTool.cpp:341-434 | the default names per type: Melee BasicAttack, Charge, Cleave; Ranged BasicAttack, PowerShot, Volley; Support BasicAttack, Heal, Buff; Elite BasicAttack, Ultimate; Boss BasicAttack, Phase1, Phase2 |
| EnemyCreatorTool.RightChop | UE_Pattern_Libraries/EnemyCreatorTools/EnemyCreator/Implementation/Source/EnemyCreatorTool.cpp:293 | dropping n characters leaves the remaining suffix, or nothing when the string is shorter |
| EnemyCreatorTool.TypeStringIsTypeName | UE_Pattern_Libraries/EnemyCreatorTools/EnemyCreator/Implementation/Source/EnemyCreatorTool.cpp:293 | removing all twelve characters of "EEnemyType::" leaves the enumerator's name |
| EnemyCreatorTool.TypeStringAsWrittenKeepsColon | UE_Pattern_Libraries/EnemyCreatorTools/EnemyCreator/Implementation/Source/EnemyCreatorTool.cpp:293 | removing only eleven characters leaves a colon in front of the name |
| EnemyCreatorTool.AssetPath | UE_Pattern_Libraries/EnemyCreatorTools/EnemyCreator/Implementation/Source/EnemyCreatorTool.cpp:293-313 | a type-directory asset path starts with "/Game/Enemies/" and has the length of the root, twice the directory, the prefix and one separator |
| EnemyCreatorTool.AbilityAssetPath | UE_Pattern_Libraries/EnemyCreatorTools/EnemyCreator/Implementation/Source/EnemyCreatorTool.cpp:439-454 | an ability class or montage path starts with "/Game/Enemies/" and has the length of its pieces and three separators |
| EnemyCreatorTool.AsWrittenPathMissesIntended | UE_Pattern_Libraries/EnemyCreatorTools/EnemyCreator/Implementation/Source/EnemyCreatorTool.cpp:293-315 | every default asset path built from the eleven-character chop is two characters longer than the intended one, so it never names the intended asset |
| EnemyCreatorTool.AsWrittenAbilityPathMissesIntended | UE_Pattern_Libraries/EnemyCreatorTools/EnemyCreator/Implementation/Source/EnemyCreatorTool.cpp:439-454 | every ability class and montage path built from the eleven-character chop is two characters longer than the intended one, so it never names the intended asset |
| EnemyCreatorTool.MeleeMeshPathAsWritten | UE_Pattern_Libraries/EnemyCreatorTools/EnemyCreator/Implementation/Source/EnemyCreatorTool.cpp:293-301 | for Melee the mesh path built is "/Game/Enemies/:Melee/SK_:Melee", where "/Game/Enemies/Melee/SK_Melee" was intended |
| EnemyCreatorTool.Load | UE_Pattern_Libraries/EnemyCreatorTools/EnemyCreator/Implementation/Source/EnemyCreatorTool.cpp:297-315 | a load succeeds exactly when the path names an existing asset |
| EnemyCreatorTool.KeepOrLoad | UE_Pattern_Libraries/EnemyCreatorTools/EnemyCreator/Implementation/Source/EnemyCreatorTool.cpp:297-315 | a successful load replaces the reference; a failed one keeps it |
| EnemyCreatorTool.LoadAbilityAssets | UE_Pattern_Libraries/EnemyCreatorTools/EnemyCreator/Implementation/Source/EnemyCreatorTool.cpp:437-460 | the asset loop keeps length, order, names and every field other than class and montage, and loads each entry's class and montage from the given directory |
| EnemyCreatorTool.IntendedMeshNeverLoads | UE_Pattern_Libraries/EnemyCreatorTools/EnemyCreator/Implementation/Source/EnemyCreatorTool.cpp:293-301 | for every type and name, a template created against a catalog holding only the mesh at its intended path gets no mesh |
| EnemyCreatorTool.CreatedTemplateAlwaysFailsChecks | UE_Pattern_Libraries/EnemyCreatorTools/EnemyCreator/Implementation/Source/EnemyCreatorTool.cpp:158-319 | a template built from the defaults never has a blackboard, so its asset checks always fail |
| EnemyCreatorTool.CreatedTemplateWithBlackboardPasses | UE_Pattern_Libraries/EnemyCreatorTools/EnemyCreator/Implementation/Source/EnemyCreatorTool.cpp:158-319 | with the assets looked up under the bare type name and the blackboard also loaded, a named template whose assets all exist at those paths is locally valid |
| EnemyCreatorTool.CreatedTemplateReportHasErrors | UE_Pattern_Libraries/EnemyCreatorTools/EnemyCreator/Implementation/Source/EnemyCreatorTool.cpp:27-35 | validating a created template always reports an error |
| EnemyCreatorTool.ParentlessReachesRoot | UE_Pattern_Libraries/EnemyCreatorTools/EnemyCreator/Implementation/Source/EnemyTemplate.cpp:30-41 | a parentless template is acyclic and inherits no errors |
| EnemyCreatorTool.InitializeTemplateDefaults | UE_Pattern_Libraries/EnemyCreatorTools/EnemyCreator/Implementation/Source/EnemyCreatorTool.cpp:158-283 | null changes nothing; otherwise the template gets the type's stats, AI settings, tag, scale and the default assets found under the eleven-character-chopped directory, and no other template changes |
| EnemyCreatorTool.LoadDefaultAssets | UE_Pattern_Libraries/EnemyCreatorTools/EnemyCreator/Implementation/Source/EnemyCreatorTool.cpp:285-319 | null changes nothing; otherwise the mesh, animation blueprint and behaviour tree are loaded where they exist under the eleven-character-chopped directory, then the default abilities |
| EnemyCreatorTool.LoadTypeAssets | UE_Pattern_Libraries/EnemyCreatorTools/EnemyCreator/Implementation/Source/EnemyCreatorTool.cpp:296-315 | each of the three loads replaces its field only when the asset exists at the path built from the given directory |
| EnemyCreatorTool.LoadDefaultAbilities | UE_Pattern_Libraries/EnemyCreatorTools/EnemyCreator/Implementation/Source/EnemyCreatorTool.cpp:321-460 | null changes nothing; otherwise the ability list is replaced by the type's defaults with their class and montage loaded from under the eleven-character-chopped directory |
| EnemyCreatorTool.LoadAbilityAssetList | UE_Pattern_Libraries/EnemyCreatorTools/EnemyCreator/Implementation/Source/EnemyCreatorTool.cpp:437-460 | the loop loads each ability's class and then its montage from the paths built from the given directory, replacing each only when it exists |
| EnemyCreatorTool.CreateNewEnemyTemplate | UE_Pattern_Libraries/EnemyCreatorTools/EnemyCreator/Implementation/Source/EnemyCreatorTool.cpp:14-38 | adds one template named (name and display name) after the string, with the type's defaults and the assets found under the eleven-character-chopped directory; as the defaults never pass validation, the result is always null |

## Left out

- ApplyVisualCustomization, ApplyAIConfiguration and ApplyAbility are engine calls (mesh, material, blackboard and ability-system components). `ApplyToInstance` yields the visuals, AI configuration and abilities it passes to them, and does not model ApplyAbility's own skip of abilities without a class.
- Loading through StaticLoadObject, LoadClass and LoadObject is an asset catalog passed as a parameter. Whether an asset loads depends only on the exact path string built, which in the creator tool contains the colon left by `RightChop(11)`.
- Ability equality, used by ValidateAbilities' IndexOfByKey, is modelled as equality of every field of the ability record. The record declares no equality operator, so the model assumes member-wise comparison.
- Stat values and multipliers are `real`: float rounding and IEEE behaviour are not modelled.
- FName comparison is modelled as exact string equality: case-insensitivity is not modelled, and the None name is the empty string.
- Localised messages (FText) are datatype constructors that carry their payload (names, an index, a value), not formatted text.
- DefaultAbilities: the localised display names and descriptions of the default abilities are not set; they play no part in validation, merging or configuration.
- TMap iteration order is unspecified. `ValidateConfiguration` states that some offending entry is reported, not which one. `ApplyStatMultipliers` holds for any visiting order.
- ValidateConfiguration's "invalid base template" branch (EnemyConfiguration.cpp:59-64) cannot be reached: the earlier check has already rejected an unresolved reference. The same holds for ApplyConfiguration's second null check (lines 37-41). Neither is modelled.
- GetStatValuePtr is not part of this model. It is assumed to resolve exactly the seven field names "Health", "Damage", "Speed", "AttackSpeed", "Defense", "CriticalChance" and "CriticalMultiplier".
- Gameplay tags are a set of strings. Whether the engine knows the requested tag is not modelled.
- The log lines CreateNewEnemyTemplate writes for each error are output only and are not modelled.
- The editor and UI wiring, preview viewport and actor, AI-assistant service and preset functions are engine, widget and service glue and are not part of this model.
- The template header declares `ValidateTemplate(FString&)` and a `bInheritanceChainDirty` flag. The model follows the implementation file: a validation-result out-parameter and `bNeedsInheritanceChainUpdate`.
- The ability record lacks the `AbilityClass` field that the implementation reads. The model adds it as an optional class reference.

## Findings

| source | as written | input that shows it | evidently intended | confidence | as-written member | corrected member |
|---|---|---|---|---|---|---|
| UE_Pattern_Libraries/EnemyCreatorTools/EnemyCreator/Implementation/Source/EnemyCreatorTool.cpp:293-315 | `RightChop(11)` (also at lines 439-454 for the ability class and montage paths) on `UEnum::GetValueAsString`, whose result starts with the 12-character `EEnemyType::` | Melee: the mesh path becomes `/Game/Enemies/:Melee/SK_:Melee` | remove the whole prefix, giving `/Game/Enemies/Melee/SK_Melee` | high, not executed | EnemyCreatorTool.IntendedMeshNeverLoads | EnemyCreatorTool.TypeStringIsTypeName |
| UE_Pattern_Libraries/EnemyCreatorTools/EnemyCreator/Implementation/Source/EnemyCreatorTool.cpp:158-319 | the defaults load a mesh, an animation blueprint and a behaviour tree but never a blackboard, and ValidateAIConfiguration requires one | any name, any type, any set of existing assets: CreateNewEnemyTemplate returns null | also load a default blackboard, so that a template whose assets exist validates | medium, not executed | EnemyCreatorTool.CreatedTemplateAlwaysFailsChecks | EnemyCreatorTool.CreatedTemplateWithBlackboardPasses |
| UE_Pattern_Libraries/EnemyCreatorTools/EnemyCreator/Implementation/Source/EnemyTemplate.cpp:72-99 | the stats are multiplied into a local copy that is never used; only the visuals, the AI configuration and the abilities are passed to the instance | any modification with a "Damage" multiplier of 2: the enemy keeps the template's damage | apply the multiplied stats to the instance, as the effective configuration computes them | high, not executed | TemplateMerge.StatMultipliersNeverReachInstance | TemplateMerge.MultipliedStatsField |
| UE_Pattern_Libraries/EnemyCreatorTools/EnemyCreator/Implementation/Source/EnemyTemplate.cpp:30-41 | ValidateTemplate recurses into the parent with no cycle guard, unlike GetInheritanceChain | a template whose parent is itself: the recursion never ends | validate along the cycle-guarded inheritance chain, which agrees with the recursion on every acyclic chain (TemplateValidation.ValidIffChainLocallyValid) | medium, not executed | EnemyTemplate.SelfParentIsCyclic | TemplateValidation.SelfParentGuardedValidity |
