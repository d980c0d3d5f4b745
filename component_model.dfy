/**
 * The values a configuration of a published module component is made of, and the
 * two collaborators a rule-aware configuration is built on: the optional base
 * configuration and the component's variant metadata rules.
 */
module ComponentModel {

  /** Identity of the module component that owns the configuration. */
  datatype ComponentId = ModuleComponentId(group: string, moduleName: string, version: string)

  /** One declared dependency of a configuration. */
  datatype DependencyMetadata = ModuleDependency(group: string, moduleName: string, version: string)

  /** An immutable attribute set: attribute name to attribute value. */
  type Attributes = map<string, string>

  /** One artifact (file) published for the component. */
  datatype ArtifactMetadata = ComponentArtifact(componentId: ComponentId, name: string, extension: string)

  /** A capability a variant declares that it provides. */
  datatype Capability = Capability(group: string, name: string, version: string)

  /** The capabilities of a variant, in declaration order. */
  type Capabilities = seq<Capability>

  /** The capability list that declares nothing (ImmutableCapabilities.EMPTY). */
  const EmptyCapabilities: Capabilities := []

  /** An exclude rule attached to a configuration. */
  datatype ExcludeMetadata = Exclude(group: string, moduleName: string)

  /** The parts a display name is composed from: owner, category and name. */
  datatype DisplayName = Describable(componentId: ComponentId, category: string, name: string)

  /** A selectable variant as exposed by `getVariants`. */
  datatype VariantResolveMetadata =
    DefaultVariantMetadata(displayName: DisplayName, attributes: Attributes,
                           artifacts: seq<ArtifactMetadata>, capabilities: Capabilities)

  /**
   * The configuration the rule-aware configuration is backed by, or `NoBase` when the
   * rule adds a variant that starts empty (a `null` base in the source).
   */
  datatype BaseConfiguration =
    | NoBase
    | Base(dependencies: seq<DependencyMetadata>, attributes: Attributes,
           artifacts: seq<ArtifactMetadata>, capabilities: Capabilities)

  /**
   * The four transforms of the component's variant metadata rules. Each takes the
   * name of the variant being derived and a seed, and returns the value the matching
   * rules make of it; the artifact transform also receives the component identity.
   * Being total functions, they are deterministic and cannot alter their seed.
   */
  datatype VariantMetadataRules = VariantMetadataRules(
    applyDependencyMetadataRules: (string, seq<DependencyMetadata>) -> seq<DependencyMetadata>,
    applyVariantAttributeRules: (string, Attributes) -> Attributes,
    applyVariantFilesMetadataRulesToArtifacts: (string, seq<ArtifactMetadata>, ComponentId) -> seq<ArtifactMetadata>,
    applyCapabilitiesRules: (string, Capabilities) -> Capabilities)

  /** Rules that return every seed unchanged. */
  ghost predicate IsIdentity(rules: VariantMetadataRules) {
    && (forall n, d :: rules.applyDependencyMetadataRules(n, d) == d)
    && (forall n, a :: rules.applyVariantAttributeRules(n, a) == a)
    && (forall n, f, c :: rules.applyVariantFilesMetadataRulesToArtifacts(n, f, c) == f)
    && (forall n, c :: rules.applyCapabilitiesRules(n, c) == c)
  }
}
