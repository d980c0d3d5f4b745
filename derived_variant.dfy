/**
 * What a rule-aware configuration computes, as values: the seed of each derived
 * field, the derived field itself, the four memo slots, and what one accessor call
 * and a whole sequence of accessor calls do to those slots.
 */
module DerivedVariant {
  import opened Wrappers
  import opened ComponentModel

  /** The final fields a rule-aware configuration is constructed with. */
  datatype VariantSetup = VariantSetup(
    name: string,
    base: BaseConfiguration,
    componentId: ComponentId,
    componentLevelAttributes: Attributes,
    rules: VariantMetadataRules)

  // ---------------------------------------------------------------- seeds

  /** The base's dependencies, or none without a base. */
  function DependencySeed(base: BaseConfiguration): seq<DependencyMetadata> {
    if base.NoBase? then [] else base.dependencies
  }

  /** The base's attributes, or the component-level attributes without a base. */
  function AttributeSeed(base: BaseConfiguration, componentLevelAttributes: Attributes): Attributes {
    if base.NoBase? then componentLevelAttributes else base.attributes
  }

  /** The base's artifacts, or none without a base. */
  function ArtifactSeed(base: BaseConfiguration): seq<ArtifactMetadata> {
    if base.NoBase? then [] else base.artifacts
  }

  /** The base's capabilities, or the empty capability list without a base. */
  function CapabilitySeed(base: BaseConfiguration): Capabilities {
    if base.NoBase? then EmptyCapabilities else base.capabilities
  }

  // ---------------------------------------------------------------- derived fields

  function DerivedDependencies(s: VariantSetup): seq<DependencyMetadata> {
    s.rules.applyDependencyMetadataRules(s.name, DependencySeed(s.base))
  }

  function DerivedAttributes(s: VariantSetup): Attributes {
    s.rules.applyVariantAttributeRules(s.name, AttributeSeed(s.base, s.componentLevelAttributes))
  }

  function DerivedArtifacts(s: VariantSetup): seq<ArtifactMetadata> {
    s.rules.applyVariantFilesMetadataRulesToArtifacts(s.name, ArtifactSeed(s.base), s.componentId)
  }

  function DerivedCapabilities(s: VariantSetup): Capabilities {
    s.rules.applyCapabilitiesRules(s.name, CapabilitySeed(s.base))
  }

  /** The display name: the owning component, the category "configuration" and the name. */
  function VariantDisplayName(s: VariantSetup): DisplayName {
    Describable(s.componentId, "configuration", s.name)
  }

  /** The single selectable variant built from the derived attributes, artifacts and capabilities. */
  function DerivedVariantMetadata(s: VariantSetup): VariantResolveMetadata {
    DefaultVariantMetadata(VariantDisplayName(s), DerivedAttributes(s), DerivedArtifacts(s), DerivedCapabilities(s))
  }

  lemma NoBaseSeeds(s: VariantSetup)
    requires s.base.NoBase?
    ensures DependencySeed(s.base) == [] && ArtifactSeed(s.base) == []
    ensures AttributeSeed(s.base, s.componentLevelAttributes) == s.componentLevelAttributes
    ensures CapabilitySeed(s.base) == EmptyCapabilities
  {
  }

  /**
   * With rules that change nothing, the derived fields are the base's fields when
   * there is a base, and the defaults when there is none.
   */
  lemma IdentityRulesExposeSeeds(s: VariantSetup)
    requires IsIdentity(s.rules)
    ensures s.base.Base? ==>
      && DerivedDependencies(s) == s.base.dependencies
      && DerivedAttributes(s) == s.base.attributes
      && DerivedArtifacts(s) == s.base.artifacts
      && DerivedCapabilities(s) == s.base.capabilities
    ensures s.base.NoBase? ==>
      && DerivedDependencies(s) == []
      && DerivedAttributes(s) == s.componentLevelAttributes
      && DerivedArtifacts(s) == []
      && DerivedCapabilities(s) == EmptyCapabilities
  {
  }

  // ---------------------------------------------------------------- memo slots

  /** The four derived fields that are computed lazily. */
  datatype Field = DependencySlot | AttributeSlot | ArtifactSlot | CapabilitySlot

  /** The memo slots; `None` means not computed yet. */
  datatype MemoSlots = MemoSlots(
    dependencies: Option<seq<DependencyMetadata>>,
    attributes: Option<Attributes>,
    artifacts: Option<seq<ArtifactMetadata>>,
    capabilities: Option<Capabilities>)

  /** The slots of a freshly constructed configuration. */
  const NoneComputed: MemoSlots := MemoSlots(None, None, None, None)

  /** The fields whose slot holds a value. */
  function Filled(m: MemoSlots): set<Field> {
    (if m.dependencies.Some? then {DependencySlot} else {})
    + (if m.attributes.Some? then {AttributeSlot} else {})
    + (if m.artifacts.Some? then {ArtifactSlot} else {})
    + (if m.capabilities.Some? then {CapabilitySlot} else {})
  }

  /** Slot `f` is the same in `m` and `m'`. */
  predicate AgreesOn(m: MemoSlots, m': MemoSlots, f: Field) {
    match f
    case DependencySlot => m.dependencies == m'.dependencies
    case AttributeSlot => m.attributes == m'.attributes
    case ArtifactSlot => m.artifacts == m'.artifacts
    case CapabilitySlot => m.capabilities == m'.capabilities
  }

  /** Every slot that was computed in `m` still holds the same value in `m'`. */
  predicate Keeps(m: MemoSlots, m': MemoSlots) {
    forall f :: f in Filled(m) ==> AgreesOn(m, m', f)
  }

  /** The rule transform runs for `f` when its slot is empty: once, or not at all. */
  function RunsFor(m: MemoSlots, f: Field): multiset<Field> {
    if f in Filled(m) then multiset{} else multiset{f}
  }

  /** Every computed slot holds the rule transform applied to its seed. */
  ghost predicate Consistent(s: VariantSetup, m: MemoSlots) {
    && (m.dependencies.Some? ==> m.dependencies.value == DerivedDependencies(s))
    && (m.attributes.Some? ==> m.attributes.value == DerivedAttributes(s))
    && (m.artifacts.Some? ==> m.artifacts.value == DerivedArtifacts(s))
    && (m.capabilities.Some? ==> m.capabilities.value == DerivedCapabilities(s))
  }

  /**
   * Fills slot `f` when it is empty, by running the matching rule transform on the
   * seed; a slot that already holds a value is left as it is.
   */
  function Fill(s: VariantSetup, m: MemoSlots, f: Field): (r: MemoSlots)
    ensures Filled(r) == Filled(m) + {f}
    ensures Keeps(m, r)
    ensures forall g :: g != f ==> AgreesOn(m, r, g)
    ensures Consistent(s, m) ==> Consistent(s, r)
  {
    match f
    case DependencySlot =>
      if m.dependencies.None? then m.(dependencies := Some(DerivedDependencies(s))) else m
    case AttributeSlot =>
      if m.attributes.None? then m.(attributes := Some(DerivedAttributes(s))) else m
    case ArtifactSlot =>
      if m.artifacts.None? then m.(artifacts := Some(DerivedArtifacts(s))) else m
    case CapabilitySlot =>
      if m.capabilities.None? then m.(capabilities := Some(DerivedCapabilities(s))) else m
  }

  // ---------------------------------------------------------------- accessor calls

  /** The accessors that read memo slots. */
  datatype Access = ReadDependencies | ReadAttributes | ReadArtifacts | ReadCapabilities | ReadVariants

  /** The slots an accessor reads (and fills when empty). */
  function Needs(a: Access): set<Field> {
    match a
    case ReadDependencies => {DependencySlot}
    case ReadAttributes => {AttributeSlot}
    case ReadArtifacts => {ArtifactSlot}
    case ReadCapabilities => {CapabilitySlot}
    case ReadVariants => {AttributeSlot, ArtifactSlot, CapabilitySlot}
  }

  /** What an accessor returns. */
  datatype Answer =
    | DependenciesAnswer(dependencies: seq<DependencyMetadata>)
    | AttributesAnswer(attributes: Attributes)
    | ArtifactsAnswer(artifacts: seq<ArtifactMetadata>)
    | CapabilitiesAnswer(capabilities: Capabilities)
    | VariantsAnswer(variants: set<VariantResolveMetadata>)

  /** What an accessor should return: the rule transforms applied to the seeds. */
  function Expected(s: VariantSetup, a: Access): Answer {
    match a
    case ReadDependencies => DependenciesAnswer(DerivedDependencies(s))
    case ReadAttributes => AttributesAnswer(DerivedAttributes(s))
    case ReadArtifacts => ArtifactsAnswer(DerivedArtifacts(s))
    case ReadCapabilities => CapabilitiesAnswer(DerivedCapabilities(s))
    case ReadVariants => VariantsAnswer({DerivedVariantMetadata(s)})
  }

  /** The slots after one accessor call, and what the call returned. */
  datatype Outcome = Outcome(slots: MemoSlots, answer: Answer)

  /**
   * One accessor call: fill the slots it needs that are still empty, then answer from
   * the slots. `ReadVariants` fills attributes, artifacts and capabilities in that order.
   */
  function Step(s: VariantSetup, m: MemoSlots, a: Access): (o: Outcome)
    ensures Filled(o.slots) == Filled(m) + Needs(a)
    ensures Keeps(m, o.slots)
    ensures forall g :: g !in Needs(a) ==> AgreesOn(m, o.slots, g)
    ensures Consistent(s, m) ==> Consistent(s, o.slots) && o.answer == Expected(s, a)
  {
    match a
    case ReadDependencies =>
      var m' := Fill(s, m, DependencySlot);
      Outcome(m', DependenciesAnswer(m'.dependencies.value))
    case ReadAttributes =>
      var m' := Fill(s, m, AttributeSlot);
      Outcome(m', AttributesAnswer(m'.attributes.value))
    case ReadArtifacts =>
      var m' := Fill(s, m, ArtifactSlot);
      Outcome(m', ArtifactsAnswer(m'.artifacts.value))
    case ReadCapabilities =>
      var m' := Fill(s, m, CapabilitySlot);
      Outcome(m', CapabilitiesAnswer(m'.capabilities.value))
    case ReadVariants =>
      var m1 := Fill(s, m, AttributeSlot);
      var m2 := Fill(s, m1, ArtifactSlot);
      var m3 := Fill(s, m2, CapabilitySlot);
      FillVariantSlots(s, m, m1, m2, m3);
      Outcome(m3, VariantsAnswer({DefaultVariantMetadata(VariantDisplayName(s), m3.attributes.value,
                                                          m3.artifacts.value, m3.capabilities.value)}))
  }

  /** The three fills `ReadVariants` does, taken together. */
  lemma FillVariantSlots(s: VariantSetup, m: MemoSlots, m1: MemoSlots, m2: MemoSlots, m3: MemoSlots)
    requires m1 == Fill(s, m, AttributeSlot) && m2 == Fill(s, m1, ArtifactSlot)
    requires m3 == Fill(s, m2, CapabilitySlot)
    ensures Filled(m3) == Filled(m) + Needs(ReadVariants)
    ensures Keeps(m, m3) && m3.dependencies == m.dependencies
  {
    assert Needs(ReadVariants) == {AttributeSlot} + {ArtifactSlot} + {CapabilitySlot};
    assert AgreesOn(m, m1, DependencySlot) && AgreesOn(m1, m2, DependencySlot) && AgreesOn(m2, m3, DependencySlot);
    KeepsTransitive(m, m1, m2);
    KeepsTransitive(m, m2, m3);
  }

  /** `ReadVariants` is the three fills in order, answered from the filled slots. */
  lemma VariantsStep(s: VariantSetup, m0: MemoSlots, m1: MemoSlots, m2: MemoSlots, m3: MemoSlots)
    requires m1 == Fill(s, m0, AttributeSlot) && m2 == Fill(s, m1, ArtifactSlot)
    requires m3 == Fill(s, m2, CapabilitySlot)
    ensures m3.attributes.Some? && m3.artifacts.Some? && m3.capabilities.Some?
    ensures Step(s, m0, ReadVariants)
         == Outcome(m3, VariantsAnswer({DefaultVariantMetadata(VariantDisplayName(s), m3.attributes.value,
                                                                m3.artifacts.value, m3.capabilities.value)}))
  {
  }

  /**
   * Calling the same accessor twice: the second call returns what the first did,
   * leaves the slots as they are and runs no rule transform.
   */
  lemma RepeatedAccessIsMemoized(s: VariantSetup, m: MemoSlots, a: Access)
    ensures var o1 := Step(s, m, a); var o2 := Step(s, o1.slots, a);
      && o2.slots == o1.slots
      && o2.answer == o1.answer
      && Filled(o2.slots) - Filled(o1.slots) == {}
  {

  }

  // ---------------------------------------------------------------- sequences of calls

  /** Every field some accessor in `trace` reads. */
  function Touched(trace: seq<Access>): set<Field> {
    if trace == [] then {} else Needs(trace[0]) + Touched(trace[1..])
  }

  /**
   * The slots after a sequence of accessor calls, the answers in call order, and the
   * fields whose rule transform ran, once per run.
   */
  datatype Trace = Trace(slots: MemoSlots, answers: seq<Answer>, evaluations: multiset<Field>)

  /**
   * Runs accessor calls one after another. Starting from consistent slots, every
   * answer is the rule transform applied to that field's seed, and the rule transform
   * of a field runs once if some call reads it and the slot was empty, never otherwise.
   */
  function Run(s: VariantSetup, m: MemoSlots, trace: seq<Access>): (r: Trace)
    ensures |r.answers| == |trace|
    ensures Filled(r.slots) == Filled(m) + Touched(trace)
    ensures Keeps(m, r.slots)
    ensures r.evaluations == multiset(Touched(trace) - Filled(m))
    ensures Consistent(s, m) ==>
      && Consistent(s, r.slots)
      && forall i :: 0 <= i < |trace| ==> r.answers[i] == Expected(s, trace[i])
    decreases |trace|
  {
    if trace == [] then
      Trace(m, [], multiset{})
    else
      var o := Step(s, m, trace[0]);
      var rest := Run(s, o.slots, trace[1..]);
      var answers := [o.answer] + rest.answers;
      assert Touched(trace) == Needs(trace[0]) + Touched(trace[1..]);
      assert Filled(o.slots) == Filled(m) + Needs(trace[0]);
      assert Filled(rest.slots) == Filled(m) + Touched(trace) by {
        assert (Filled(m) + Needs(trace[0])) + Touched(trace[1..]) == Filled(m) + Touched(trace);
      }
      DisjointRuns(Filled(m), Needs(trace[0]), Touched(trace[1..]));
      KeepsTransitive(m, o.slots, rest.slots);
      assert Consistent(s, m) ==> forall i :: 0 <= i < |trace| ==> answers[i] == Expected(s, trace[i]) by {
        if Consistent(s, m) {
          forall i | 0 < i < |trace| ensures answers[i] == Expected(s, trace[i]) {
            assert answers[i] == rest.answers[i - 1] && trace[i] == trace[1..][i - 1];
          }
        }
      }
      Trace(rest.slots, answers, multiset(Filled(o.slots) - Filled(m)) + rest.evaluations)
  }

  lemma KeepsTransitive(m1: MemoSlots, m2: MemoSlots, m3: MemoSlots)
    requires Keeps(m1, m2) && Keeps(m2, m3) && Filled(m1) <= Filled(m2)
    ensures Keeps(m1, m3)
  {

  }

  /** The fields evaluated by the first call and by the rest of a run add up. */
  lemma DisjointRuns(done: set<Field>, first: set<Field>, later: set<Field>)
    ensures multiset((done + first) - done) + multiset(later - (done + first))
         == multiset((first + later) - done)
  {

  }

  /** From a fresh configuration, each rule transform runs at most once whatever is called. */
  lemma EachRuleRunsAtMostOnce(s: VariantSetup, trace: seq<Access>)
    ensures forall f :: Run(s, NoneComputed, trace).evaluations[f] == (if f in Touched(trace) then 1 else 0)
  {
  }

  /**
   * A rule that appends one dependency, on a base with two: the first call returns
   * the base's two followed by the appended one, and a second call returns the same
   * three, not a fourth.
   */
  lemma AppendingRuleAppliesOnce(s: VariantSetup, d1: DependencyMetadata, d2: DependencyMetadata,
                                 extra: DependencyMetadata)
    requires s.base.Base? && s.base.dependencies == [d1, d2]
    requires forall n, d :: s.rules.applyDependencyMetadataRules(n, d) == d + [extra]
    ensures Run(s, NoneComputed, [ReadDependencies, ReadDependencies]).answers
         == [DependenciesAnswer([d1, d2, extra]), DependenciesAnswer([d1, d2, extra])]
  {
    assert DerivedDependencies(s) == [d1, d2] + [extra] == [d1, d2, extra];
    var trace := [ReadDependencies, ReadDependencies];
    var r := Run(s, NoneComputed, trace);
    assert Consistent(s, NoneComputed);
    assert r.answers[0] == Expected(s, trace[0]) && r.answers[1] == Expected(s, trace[1]);
    assert Expected(s, ReadDependencies) == DependenciesAnswer([d1, d2, extra]);
  }
}
