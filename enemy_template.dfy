/**
 * UEnemyTemplate: the template record, the arena of templates that parent
 * references point into, the inheritance-chain walk with its cache, and
 * child cloning.
 *
 * A parent reference is an id; one that is not a key of the arena reads as
 * null, like a soft pointer whose object is not there.
 */
module EnemyTemplate {
  import opened EnemyTemplateTypes

  type TemplateId = nat

  datatype Template = Template(
    name: Name,
    displayName: string,
    description: string,
    parent: Option<TemplateId>,
    tags: Tags,
    baseStats: BaseStats,
    aiConfig: AIConfig,
    visuals: VisualCustomization,
    abilities: seq<AbilityDefinition>,
    needsChainUpdate: bool,          // bNeedsInheritanceChainUpdate
    cachedChain: seq<TemplateId>)    // CachedInheritanceChain

  type Templates = map<TemplateId, Template>

  /** A template as the constructor leaves it: default records, no parent, chain cache dirty. */
  function NewTemplate(): (t: Template)
    ensures t.needsChainUpdate && t.cachedChain == [] && t.parent == None
    ensures t.baseStats == DefaultBaseStats() && t.aiConfig == DefaultAIConfig()
    ensures t.visuals == DefaultVisualCustomization() && t.abilities == []
  {
    Template(NoName, "", "", None, {}, DefaultBaseStats(), DefaultAIConfig(),
             DefaultVisualCustomization(), [], true, [])
  }

  /** The parent of `id`, when it has one and it resolves in the arena. */
  function ParentOf(templates: Templates, id: TemplateId): (p: Option<TemplateId>)
    requires id in templates
    ensures p.Some? ==> p.value in templates && templates[id].parent == p
    ensures p.None? ==> templates[id].parent.None? || templates[id].parent.value !in templates
  {
    match templates[id].parent
    case Some(q) => if q in templates then Some(q) else None
    case None => None
  }

  predicate Distinct(s: seq<TemplateId>)
  {
    forall i, j :: 0 <= i < j < |s| ==> s[i] != s[j]
  }

  /** Collecting one more template shrinks the set of templates not yet collected. */
  lemma WalkShrinks(keys: set<TemplateId>, visited: seq<TemplateId>, current: TemplateId)
    requires current in keys && current !in visited
    ensures (keys - set v | v in visited + [current]) < (keys - set v | v in visited)
  {
    assert current in (keys - set v | v in visited) - (keys - set v | v in visited + [current]);
  }

  /**
   * The parent walk that starts at `current` after `visited` has been
   * collected: append `current`, then stop at a null parent or at a parent
   * already collected, otherwise go on from the parent.
   */
  function ChainFrom(templates: Templates, visited: seq<TemplateId>, current: TemplateId): (chain: seq<TemplateId>)
    requires current in templates && current !in visited
    ensures |visited| < |chain| && chain[..|visited|] == visited && chain[|visited|] == current
    ensures forall i :: |visited| <= i < |chain| ==> chain[i] in templates
    decreases templates.Keys - set v | v in visited
  {
    var walked := visited + [current];
    WalkShrinks(templates.Keys, visited, current);
    match ParentOf(templates, current)
    case None => walked
    case Some(p) => if p in walked then walked else ChainFrom(templates, walked, p)
  }

  /** GetInheritanceChain's result: the walk from the template itself. */
  function InheritanceChain(templates: Templates, id: TemplateId): (chain: seq<TemplateId>)
    requires id in templates
    ensures |chain| > 0 && chain[0] == id
    ensures forall i :: 0 <= i < |chain| ==> chain[i] in templates
  {
    ChainFrom(templates, [], id)
  }

  /**
   * The walk from `id` ends at a template with no parent rather than at a
   * repeat: the parent chain from `id` is acyclic.
   */
  predicate ReachesRoot(templates: Templates, id: TemplateId)
    requires id in templates
  {
    var chain := InheritanceChain(templates, id);
    ParentOf(templates, chain[|chain| - 1]).None?
  }

  /** From position `from` on, every entry of `chain` is followed by its parent. */
  predicate ParentLinked(templates: Templates, chain: seq<TemplateId>, from: nat)
  {
    forall i :: from <= i < |chain| - 1 ==> chain[i] in templates && ParentOf(templates, chain[i]) == Some(chain[i + 1])
  }

  lemma {:induction false} ChainFromLinks(templates: Templates, visited: seq<TemplateId>, current: TemplateId)
    requires current in templates && current !in visited
    ensures ParentLinked(templates, ChainFrom(templates, visited, current), |visited|)
    decreases templates.Keys - set v | v in visited
  {
    var walked := visited + [current];
    WalkShrinks(templates.Keys, visited, current);
    match ParentOf(templates, current)
    case None =>
    case Some(p) =>
      if p !in walked {
        ChainFromLinks(templates, walked, p);
        var chain := ChainFrom(templates, walked, p);
        assert ChainFrom(templates, visited, current) == chain;
        assert chain[|visited|] == walked[|visited|] == current;
        assert chain[|walked|] == p;
      }
  }

  lemma {:induction false} ChainFromDistinct(templates: Templates, visited: seq<TemplateId>, current: TemplateId)
    requires current in templates && current !in visited && Distinct(visited)
    ensures Distinct(ChainFrom(templates, visited, current))
    decreases templates.Keys - set v | v in visited
  {
    var walked := visited + [current];
    WalkShrinks(templates.Keys, visited, current);
    assert Distinct(walked);
    match ParentOf(templates, current)
    case None =>
    case Some(p) =>
      if p !in walked {
        ChainFromDistinct(templates, walked, p);
      }
  }

  lemma {:induction false} ChainFromEnd(templates: Templates, visited: seq<TemplateId>, current: TemplateId)
    requires current in templates && current !in visited
    ensures var chain := ChainFrom(templates, visited, current);
            var last := ParentOf(templates, chain[|chain| - 1]);
            last.None? || last.value in chain
    decreases templates.Keys - set v | v in visited
  {
    var walked := visited + [current];
    WalkShrinks(templates.Keys, visited, current);
    match ParentOf(templates, current)
    case None =>
    case Some(p) =>
      if p !in walked {
        ChainFromEnd(templates, walked, p);
      }
  }

  lemma {:induction false} DistinctBound(s: seq<TemplateId>, universe: set<TemplateId>)
    requires Distinct(s)
    requires forall i :: 0 <= i < |s| ==> s[i] in universe
    ensures |s| <= |universe|
    decreases |s|
  {
    if s != [] {
      var rest := s[1..];
      assert forall i :: 0 <= i < |rest| ==> rest[i] == s[i + 1];
      assert s[0] !in rest;
      DistinctBound(rest, universe - {s[0]});
    }
  }

  /**
   * The shape of GetInheritanceChain's result: it starts with the template
   * itself, each entry is followed by its parent, no template appears twice
   * (so the walk takes at most as many steps as there are templates, cycles
   * included), and it ends exactly where the last entry's parent is null or
   * already collected.
   */
  lemma InheritanceChainShape(templates: Templates, id: TemplateId)
    requires id in templates
    ensures var chain := InheritanceChain(templates, id);
            && chain[0] == id
            && (ParentOf(templates, id).None? ==> chain == [id])
            && ParentLinked(templates, chain, 0)
            && (forall i, j :: 0 <= j <= i < |chain| - 1 ==> ParentOf(templates, chain[i]) != Some(chain[j]))
            && Distinct(chain)
            && |chain| <= |templates.Keys|
            && var last := ParentOf(templates, chain[|chain| - 1]);
               last.None? || last.value in chain
  {
    var chain := InheritanceChain(templates, id);
    ChainFromLinks(templates, [], id);
    ChainFromDistinct(templates, [], id);
    ChainFromEnd(templates, [], id);
    DistinctBound(chain, templates.Keys);
    forall i, j | 0 <= j <= i < |chain| - 1
      ensures ParentOf(templates, chain[i]) != Some(chain[j])
    {
      assert ParentOf(templates, chain[i]) == Some(chain[i + 1]);
    }
  }

  /**
   * A walk that reaches a root does not depend on how much of the visited
   * prefix it is given: cycle detection never fires on it.
   */
  lemma {:induction false} ChainFromSuffix(templates: Templates, a: seq<TemplateId>, b: seq<TemplateId>, current: TemplateId)
    requires current in templates && current !in b
    requires forall x :: x in a ==> x in b
    requires var chain := ChainFrom(templates, b, current); ParentOf(templates, chain[|chain| - 1]).None?
    ensures current !in a
    ensures ChainFrom(templates, a, current) == a + ChainFrom(templates, b, current)[|b|..]
    decreases templates.Keys - set v | v in b
  {
    var wa, wb := a + [current], b + [current];
    WalkShrinks(templates.Keys, b, current);
    match ParentOf(templates, current)
    case None =>
    case Some(p) =>
      if p in wb {
        assert false;
      } else {
        ChainFromSuffix(templates, wa, wb, p);
        var tail := ChainFrom(templates, wb, p);
        assert tail[..|b|] == b && tail[|b|] == current;
        assert tail[|b|..] == [current] + tail[|wb|..];
      }
  }

  /**
   * On an acyclic chain, the chain of a template is the template followed by
   * its parent's chain, and the parent's chain is acyclic too. This is what
   * makes ValidateTemplate's recursion through the parent terminate.
   */
  lemma ParentChain(templates: Templates, id: TemplateId)
    requires id in templates && ReachesRoot(templates, id)
    requires ParentOf(templates, id).Some?
    ensures var p := ParentOf(templates, id).value;
            && InheritanceChain(templates, id) == [id] + InheritanceChain(templates, p)
            && ReachesRoot(templates, p)
  {
    var p := ParentOf(templates, id).value;
    if p == id {
      assert false;
    }
    assert [] + [id] == [id];
    var full := ChainFrom(templates, [id], p);
    assert InheritanceChain(templates, id) == full;
    ChainFromSuffix(templates, [], [id], p);
    var rest := InheritanceChain(templates, p);
    assert rest == full[1..] by {
      assert [] + full[1..] == full[1..];
    }
    assert full == [id] + rest by {
      assert full[..1] == [id];
    }
    assert rest[|rest| - 1] == full[|full| - 1];
  }

  /** A template whose parent is itself never reaches a root. */
  lemma SelfParentIsCyclic(templates: Templates, id: TemplateId)
    requires id in templates && templates[id].parent == Some(id)
    ensures InheritanceChain(templates, id) == [id]
    ensures !ReachesRoot(templates, id)
  {
  }

  /**
   * The while loop of GetInheritanceChain: follow parent links, append
   * each template, and stop at a null parent or at one already collected.
   */
  method ComputeInheritanceChain(templates: Templates, id: TemplateId) returns (chain: seq<TemplateId>)
    requires id in templates
    ensures chain == InheritanceChain(templates, id)
  {
    chain := [];
    var current: Option<TemplateId> := Some(id);
    while current.Some?
      invariant current.Some? ==> current.value in templates && current.value !in chain
      invariant current.Some? ==> ChainFrom(templates, chain, current.value) == InheritanceChain(templates, id)
      invariant current.None? ==> chain == InheritanceChain(templates, id)
      decreases templates.Keys - set v | v in chain
    {
      var node := current.value;
      WalkShrinks(templates.Keys, chain, node);
      chain := chain + [node];
      current := ParentOf(templates, node);
      if current.Some? && current.value in chain {
        assert chain == InheritanceChain(templates, id);
        break;
      }
    }
  }

  /** The parent reference and fields a child template gets from CreateChildTemplate. */
  function ChildOf(source: Template, sourceId: TemplateId, newName: Name): (child: Template)
    ensures child.parent == Some(sourceId) && child.name == newName
    ensures child.baseStats == source.baseStats && child.aiConfig == source.aiConfig
    ensures child.visuals == source.visuals && child.abilities == source.abilities
    ensures child.displayName == "" && child.description == "" && child.tags == {}
    ensures child.needsChainUpdate
  {
    NewTemplate().(parent := Some(sourceId), name := newName,
                   baseStats := source.baseStats, aiConfig := source.aiConfig,
                   visuals := source.visuals, abilities := source.abilities)
  }

  /**
   * The heap of UEnemyTemplate objects: every template, keyed by identity.
   * `nextId` is where NewObject places the next template.
   */
  class TemplateArena {
    var templates: Templates
    var nextId: TemplateId

    ghost predicate Valid()
      reads this
    {
      forall id :: id in templates ==> id < nextId
    }

    constructor ()
      ensures Valid() && templates == map[]
    {
      templates := map[];
      nextId := 0;
    }

    /** NewObject<UEnemyTemplate>(): a fresh template with default fields. */
    method NewObject() returns (id: TemplateId)
      requires Valid()
      modifies this
      ensures Valid()
      ensures id == old(nextId) && id !in old(templates)
      ensures templates == old(templates)[id := NewTemplate()]
    {
      id := nextId;
      templates := templates[id := NewTemplate()];
      nextId := nextId + 1;
    }

    /**
     * GetInheritanceChain: recompute the chain when the cache is dirty and
     * clear the flag; otherwise return the cached chain untouched.
     */
    method GetInheritanceChain(id: TemplateId) returns (chain: seq<TemplateId>)
      requires id in templates
      modifies this
      ensures nextId == old(nextId)
      ensures old(templates[id].needsChainUpdate) ==>
                && chain == InheritanceChain(old(templates), id)
                && templates == old(templates)[id := old(templates[id]).(needsChainUpdate := false, cachedChain := chain)]
      ensures !old(templates[id].needsChainUpdate) ==>
                chain == old(templates[id].cachedChain) && templates == old(templates)
    {
      var t := templates[id];
      if t.needsChainUpdate {
        chain := ComputeInheritanceChain(templates, id);
        templates := templates[id := t.(needsChainUpdate := false, cachedChain := chain)];
      } else {
        chain := t.cachedChain;
      }
    }

    /**
     * CreateChildTemplate: a new template whose parent is the source, named
     * `newName`, with the source's stats, AI, visuals and abilities. The
     * source and every other template are unchanged.
     */
    method CreateChildTemplate(source: TemplateId, newName: Name) returns (child: TemplateId)
      requires Valid() && source in templates
      modifies this
      ensures Valid()
      ensures child !in old(templates) && child != source
      ensures templates == old(templates)[child := ChildOf(old(templates[source]), source, newName)]
      ensures InheritanceChain(templates, child)[..2] == [child, source]
    {
      child := NewObject();
      var t := templates[child];
      t := t.(parent := Some(source), name := newName);
      var s := templates[source];
      t := t.(baseStats := s.baseStats, aiConfig := s.aiConfig, visuals := s.visuals, abilities := s.abilities);
      templates := templates[child := t];
      assert ParentOf(templates, child) == Some(source);
      assert [] + [child] == [child];
      assert InheritanceChain(templates, child) == ChainFrom(templates, [child], source);
    }
  }
}
