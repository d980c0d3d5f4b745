/**
 * A configuration that a component metadata rule adds to a published component as
 * an extra variant. It is backed by an existing configuration (its base) or starts
 * empty, and computes its dependencies, attributes, artifacts and capabilities on
 * first use by running the variant metadata rules over a seed, keeping the result.
 */
module LazyConfiguration {
  import opened Wrappers
  import opened ComponentModel
  import opened DerivedVariant

  class LazyRuleAwareWithBaseConfigurationMetadata {
    const name: string
    const base: BaseConfiguration
    const componentId: ComponentId
    const variantMetadataRules: VariantMetadataRules
    const componentLevelAttributes: Attributes

    var computedDependencies: Option<seq<DependencyMetadata>>
    var computedAttributes: Option<Attributes>
    var computedCapabilities: Option<Capabilities>
    var computedArtifacts: Option<seq<ArtifactMetadata>>

    /** The fields whose rule transform has run, once per run. */
    ghost var ruleEvaluations: multiset<Field>

    /** The final fields, as a value. */
    function Setup(): VariantSetup {
      VariantSetup(name, base, componentId, componentLevelAttributes, variantMetadataRules)
    }

    /** The memo slots, as a value. */
    function Slots(): MemoSlots
      reads this
    {
      MemoSlots(computedDependencies, computedAttributes, computedArtifacts, computedCapabilities)
    }

    /**
     * Every computed slot holds its rule transform applied to its seed, and each rule
     * transform has run exactly once for a computed slot and never for an empty one.
     */
    ghost predicate Valid()
      reads this
    {
      && Consistent(Setup(), Slots())
      && forall f :: ruleEvaluations[f] == if f in Filled(Slots()) then 1 else 0
    }

    constructor (name: string, base: BaseConfiguration, componentId: ComponentId,
                 componentLevelAttributes: Attributes, variantMetadataRules: VariantMetadataRules)
      ensures Valid()
      ensures this.name == name && this.base == base && this.componentId == componentId
      ensures this.componentLevelAttributes == componentLevelAttributes
      ensures this.variantMetadataRules == variantMetadataRules
      ensures Slots() == NoneComputed && ruleEvaluations == multiset{}
    {
      this.name := name;
      this.base := base;
      this.componentId := componentId;
      this.variantMetadataRules := variantMetadataRules;
      this.componentLevelAttributes := componentLevelAttributes;
      computedDependencies := None;
      computedAttributes := None;
      computedCapabilities := None;
      computedArtifacts := None;
      ruleEvaluations := multiset{};
    }

    /** The name is the one the display name carries and the only member of the hierarchy. */
    function GetName(): (r: string)
      ensures AsDescribable().name == r && GetHierarchy() == {r}
    {
      name
    }

    method GetDependencies() returns (r: seq<DependencyMetadata>)
      requires Valid()
      modifies this
      ensures Valid()
      ensures r == DerivedDependencies(Setup()) && computedDependencies == Some(r)
      ensures old(computedDependencies).Some? ==> r == old(computedDependencies).value
      ensures computedAttributes == old(computedAttributes) && computedArtifacts == old(computedArtifacts)
      ensures computedCapabilities == old(computedCapabilities)
      ensures Slots() == Fill(Setup(), old(Slots()), DependencySlot)
      ensures ruleEvaluations == old(ruleEvaluations) + RunsFor(old(Slots()), DependencySlot)
      ensures Step(Setup(), old(Slots()), ReadDependencies) == Outcome(Slots(), DependenciesAnswer(r))
    {
      ghost var before := Slots();
      if computedDependencies.None? {
        computedDependencies := Some(variantMetadataRules.applyDependencyMetadataRules(
          name, DependencySeed(base)));
        ruleEvaluations := ruleEvaluations + multiset{DependencySlot};
      }
      r := computedDependencies.value;
      assert Slots() == Fill(Setup(), before, DependencySlot);
    }

    method GetAttributes() returns (r: Attributes)
      requires Valid()
      modifies this
      ensures Valid()
      ensures r == DerivedAttributes(Setup()) && computedAttributes == Some(r)
      ensures old(computedAttributes).Some? ==> r == old(computedAttributes).value
      ensures computedDependencies == old(computedDependencies) && computedArtifacts == old(computedArtifacts)
      ensures computedCapabilities == old(computedCapabilities)
      ensures Slots() == Fill(Setup(), old(Slots()), AttributeSlot)
      ensures ruleEvaluations == old(ruleEvaluations) + RunsFor(old(Slots()), AttributeSlot)
      ensures Step(Setup(), old(Slots()), ReadAttributes) == Outcome(Slots(), AttributesAnswer(r))
    {
      ghost var before := Slots();
      if computedAttributes.None? {
        computedAttributes := Some(variantMetadataRules.applyVariantAttributeRules(
          name, AttributeSeed(base, componentLevelAttributes)));
        ruleEvaluations := ruleEvaluations + multiset{AttributeSlot};
      }
      r := computedAttributes.value;
      assert Slots() == Fill(Setup(), before, AttributeSlot);
    }

    method GetArtifacts() returns (r: seq<ArtifactMetadata>)
      requires Valid()
      modifies this
      ensures Valid()
      ensures r == DerivedArtifacts(Setup()) && computedArtifacts == Some(r)
      ensures old(computedArtifacts).Some? ==> r == old(computedArtifacts).value
      ensures computedDependencies == old(computedDependencies) && computedAttributes == old(computedAttributes)
      ensures computedCapabilities == old(computedCapabilities)
      ensures Slots() == Fill(Setup(), old(Slots()), ArtifactSlot)
      ensures ruleEvaluations == old(ruleEvaluations) + RunsFor(old(Slots()), ArtifactSlot)
      ensures Step(Setup(), old(Slots()), ReadArtifacts) == Outcome(Slots(), ArtifactsAnswer(r))
    {
      ghost var before := Slots();
      if computedArtifacts.None? {
        computedArtifacts := Some(variantMetadataRules.applyVariantFilesMetadataRulesToArtifacts(
          name, ArtifactSeed(base), componentId));
        ruleEvaluations := ruleEvaluations + multiset{ArtifactSlot};
      }
      r := computedArtifacts.value;
      assert Slots() == Fill(Setup(), before, ArtifactSlot);
    }

    method GetCapabilities() returns (r: Capabilities)
      requires Valid()
      modifies this
      ensures Valid()
      ensures r == DerivedCapabilities(Setup()) && computedCapabilities == Some(r)
      ensures old(computedCapabilities).Some? ==> r == old(computedCapabilities).value
      ensures computedDependencies == old(computedDependencies) && computedAttributes == old(computedAttributes)
      ensures computedArtifacts == old(computedArtifacts)
      ensures Slots() == Fill(Setup(), old(Slots()), CapabilitySlot)
      ensures ruleEvaluations == old(ruleEvaluations) + RunsFor(old(Slots()), CapabilitySlot)
      ensures Step(Setup(), old(Slots()), ReadCapabilities) == Outcome(Slots(), CapabilitiesAnswer(r))
    {
      ghost var before := Slots();
      if computedCapabilities.None? {
        computedCapabilities := Some(variantMetadataRules.applyCapabilitiesRules(
          name, CapabilitySeed(base)));
        ruleEvaluations := ruleEvaluations + multiset{CapabilitySlot};
      }
      r := computedCapabilities.value;
      assert Slots() == Fill(Setup(), before, CapabilitySlot);
    }

    function RequiresMavenArtifactDiscovery(): (r: bool)
      ensures !r
    {
      false
    }

    /**
     * The single variant this configuration exposes, carrying its own memoized
     * attributes, artifacts and capabilities; building it computes any of the three
     * that were not computed yet.
     */
    method GetVariants() returns (r: set<VariantResolveMetadata>)
      requires Valid()
      modifies this
      ensures Valid()
      ensures computedAttributes.Some? && computedArtifacts.Some? && computedCapabilities.Some?
      ensures r == {DefaultVariantMetadata(AsDescribable(), computedAttributes.value,
                                           computedArtifacts.value, computedCapabilities.value)}
      ensures r == {DerivedVariantMetadata(Setup())}
      ensures computedDependencies == old(computedDependencies)
      ensures Keeps(old(Slots()), Slots())
      ensures ruleEvaluations == old(ruleEvaluations) + RunsFor(old(Slots()), AttributeSlot)
                                 + RunsFor(old(Slots()), ArtifactSlot) + RunsFor(old(Slots()), CapabilitySlot)
      ensures Step(Setup(), old(Slots()), ReadVariants) == Outcome(Slots(), VariantsAnswer(r))
    {
      ghost var s0 := Slots();
      var displayName := AsDescribable();
      var attributes := GetAttributes();
      ghost var s1 := Slots();
      var artifacts := GetArtifacts();
      ghost var s2 := Slots();
      var capabilities := GetCapabilities();
      r := {DefaultVariantMetadata(displayName, attributes, artifacts, capabilities)};
      VariantsStep(Setup(), s0, s1, s2, Slots());
    }

    function AsDescribable(): (d: DisplayName)
      ensures d.componentId == componentId && d.category == "configuration" && d.name == name
    {
      VariantDisplayName(Setup())
    }

    /** This configuration never inherits ancestor names from its base. */
    function GetHierarchy(): (h: set<string>)
      ensures |h| == 1 && name in h
    {
      {name}
    }

    function GetExcludes(): (r: seq<ExcludeMetadata>)
      ensures |r| == 0
    {
      []
    }

    function IsTransitive(): (r: bool)
      ensures r
    {
      true
    }

    function IsVisible(): (r: bool)
      ensures r
    {
      true
    }

    function IsCanBeConsumed(): (r: bool)
      ensures r
    {
      true
    }

    function IsCanBeResolved(): (r: bool)
      ensures !r
    {
      false
    }

    function GetConsumptionAlternatives(): (r: seq<string>)
      ensures |r| == 0
    {
      []
    }
  }

  /**
   * A configuration backed by a base with two dependencies, under a rule that appends
   * one: both calls return the base's two followed by the appended one, and the
   * dependency rule runs once.
   */
  method RuleOverlayOnObject(d1: DependencyMetadata, d2: DependencyMetadata, extra: DependencyMetadata,
                             id: ComponentId, attributes: Attributes)
    returns (first: seq<DependencyMetadata>, second: seq<DependencyMetadata>)
    ensures first == second == [d1, d2, extra]
  {
    var rules := VariantMetadataRules(
      (n: string, d: seq<DependencyMetadata>) => d + [extra],
      (n: string, a: Attributes) => a,
      (n: string, f: seq<ArtifactMetadata>, c: ComponentId) => f,
      (n: string, c: Capabilities) => c);
    var v := new LazyRuleAwareWithBaseConfigurationMetadata(
      "extra", Base([d1, d2], attributes, [], EmptyCapabilities), id, map[], rules);
    first := v.GetDependencies();
    second := v.GetDependencies();
    assert v.ruleEvaluations == multiset{DependencySlot};
  }
}
