# Rule-aware configuration with an optional base

A model of Gradle's `LazyRuleAwareWithBaseConfigurationMetadata`: the configuration a
component metadata rule adds to a published module component as an extra variant.
It is backed by an existing configuration (its *base*) or starts empty. Its
dependencies, attributes, artifacts and capabilities are computed on first use: the
base's value (or a default when there is no base) is the *seed*, the component's
variant metadata rules transform it, and the result is kept in a memo slot so the
transform runs once. Everything else about the configuration is fixed: its hierarchy
is its own name only, it is transitive, visible and consumable but not resolvable,
and it has no excludes and no consumption alternatives.

Files:

- `wrappers.dfy` — `Option`, the type of a memo slot.
- `component_model.dfy` — the values a configuration is made of, the optional base
  configuration (`NoBase` or `Base` with its four values) and the variant metadata
  rules as four deterministic transforms, each taking the variant's name and a seed.
- `derived_variant.dfy` — the specification as values: seeds, derived fields, the
  four memo slots, one accessor call (`Step`) and a sequence of calls (`Run`), with
  the memoisation theorems.
- `lazy_configuration.dfy` — the class itself: final fields as `const`, memo
  slots as `Option` fields, a ghost multiset counting rule-transform runs, the
  memoising getters proved against `Step`, and the constant accessors.

## Model

| member | source | states |
|---|---|---|
| DerivedVariant.NoBaseSeeds | subprojects/dependency-management/src/main/java/org/gradle/internal/component/external/model/LazyRuleAwareWithBaseConfigurationMetadata.java:68-97 | without a base the seeds are no dependencies, the component-level attributes, no artifacts and the empty capability list |
| DerivedVariant.IdentityRulesExposeSeeds | subprojects/dependency-management/src/main/java/org/gradle/internal/component/external/model/LazyRuleAwareWithBaseConfigurationMetadata.java:68-97 | under rules that change nothing, each derived field equals the base's field when there is a base, and the default seed when there is none |
| DerivedVariant.Fill | subprojects/dependency-management/src/main/java/org/gradle/internal/component/external/model/LazyRuleAwareWithBaseConfigurationMetadata.java:69-71 | filling a slot marks exactly that field computed, keeps every computed slot and every other slot as it was, and keeps all slots equal to rule-applied-to-seed |
| DerivedVariant.Step | subprojects/dependency-management/src/main/java/org/gradle/internal/component/external/model/LazyRuleAwareWithBaseConfigurationMetadata.java:68-107 | one accessor call fills exactly the slots it reads, never changes a computed slot or a slot it does not read, and from consistent slots returns the rule transform applied to the seed (for getVariants, the single variant of the derived attributes, artifacts and capabilities) |
| DerivedVariant.RepeatedAccessIsMemoized | subprojects/dependency-management/src/main/java/org/gradle/internal/component/external/model/LazyRuleAwareWithBaseConfigurationMetadata.java:68-97 | a second call of the same accessor returns what the first did, leaves the slots unchanged and runs no rule transform |
| DerivedVariant.Run | subprojects/dependency-management/src/main/java/org/gradle/internal/component/external/model/LazyRuleAwareWithBaseConfigurationMetadata.java:68-107 | over any sequence of accessor calls the computed slots only grow and never change, every answer is the rule transform of that field's seed, and each field's transform runs once if read while empty and never otherwise |
| DerivedVariant.EachRuleRunsAtMostOnce | subprojects/dependency-management/src/main/java/org/gradle/internal/component/external/model/LazyRuleAwareWithBaseConfigurationMetadata.java:68-97 | from a fresh configuration, each field's rule transform runs exactly once if some call reads it and never otherwise, whatever the sequence of calls |
| DerivedVariant.AppendingRuleAppliesOnce | subprojects/dependency-management/src/main/java/org/gradle/internal/component/external/model/LazyRuleAwareWithBaseConfigurationMetadata.java:68-73 | with a base of two dependencies and a rule appending one, two calls both return the two followed by the appended one (no double append) |
| LazyConfiguration.LazyRuleAwareWithBaseConfigurationMetadata.constructor | subprojects/dependency-management/src/main/java/org/gradle/internal/component/external/model/LazyRuleAwareWithBaseConfigurationMetadata.java:54-60 | stores the five final fields; every memo slot is empty and no rule transform has run |
| LazyConfiguration.LazyRuleAwareWithBaseConfigurationMetadata.GetName | subprojects/dependency-management/src/main/java/org/gradle/internal/component/external/model/LazyRuleAwareWithBaseConfigurationMetadata.java:62-65 | the name is the one in the display name and the only member of the hierarchy |
| LazyConfiguration.LazyRuleAwareWithBaseConfigurationMetadata.GetDependencies | subprojects/dependency-management/src/main/java/org/gradle/internal/component/external/model/LazyRuleAwareWithBaseConfigurationMetadata.java:67-73 | returns the dependency rules applied to (name, base's dependencies or none); fills only its own slot; a computed slot is returned as it is without running the rule again |
| LazyConfiguration.LazyRuleAwareWithBaseConfigurationMetadata.GetAttributes | subprojects/dependency-management/src/main/java/org/gradle/internal/component/external/model/LazyRuleAwareWithBaseConfigurationMetadata.java:75-81 | returns the attribute rules applied to (name, base's attributes or the component-level attributes); fills only its own slot; a computed slot is returned unchanged without running the rule |
| LazyConfiguration.LazyRuleAwareWithBaseConfigurationMetadata.GetArtifacts | subprojects/dependency-management/src/main/java/org/gradle/internal/component/external/model/LazyRuleAwareWithBaseConfigurationMetadata.java:83-89 | returns the artifact rules applied to (name, base's artifacts or none, component id); fills only its own slot; a computed slot is returned unchanged without running the rule |
| LazyConfiguration.LazyRuleAwareWithBaseConfigurationMetadata.GetCapabilities | subprojects/dependency-management/src/main/java/org/gradle/internal/component/external/model/LazyRuleAwareWithBaseConfigurationMetadata.java:91-97 | returns the capability rules applied to (name, base's capabilities or the empty list); fills only its own slot; a computed slot is returned unchanged without running the rule |
| LazyConfiguration.LazyRuleAwareWithBaseConfigurationMetadata.RequiresMavenArtifactDiscovery | subprojects/dependency-management/src/main/java/org/gradle/internal/component/external/model/LazyRuleAwareWithBaseConfigurationMetadata.java:99-102 | always false |
| LazyConfiguration.LazyRuleAwareWithBaseConfigurationMetadata.GetVariants | subprojects/dependency-management/src/main/java/org/gradle/internal/component/external/model/LazyRuleAwareWithBaseConfigurationMetadata.java:104-107 | returns exactly one variant whose attributes, artifacts and capabilities are this configuration's memoized ones (computing those not yet computed) and whose display name is this configuration's; the dependency slot is untouched |
| LazyConfiguration.LazyRuleAwareWithBaseConfigurationMetadata.AsDescribable | subprojects/dependency-management/src/main/java/org/gradle/internal/component/external/model/LazyRuleAwareWithBaseConfigurationMetadata.java:109-112 | the display name is composed of the component id, the category "configuration" and the name |
| LazyConfiguration.LazyRuleAwareWithBaseConfigurationMetadata.GetHierarchy | subprojects/dependency-management/src/main/java/org/gradle/internal/component/external/model/LazyRuleAwareWithBaseConfigurationMetadata.java:119-122 | a single name, this configuration's own, whatever the base |
| LazyConfiguration.LazyRuleAwareWithBaseConfigurationMetadata.GetExcludes | subprojects/dependency-management/src/main/java/org/gradle/internal/component/external/model/LazyRuleAwareWithBaseConfigurationMetadata.java:124-127 | always empty |
| LazyConfiguration.LazyRuleAwareWithBaseConfigurationMetadata.IsTransitive | subprojects/dependency-management/src/main/java/org/gradle/internal/component/external/model/LazyRuleAwareWithBaseConfigurationMetadata.java:129-132 | always true |
| LazyConfiguration.LazyRuleAwareWithBaseConfigurationMetadata.IsVisible | subprojects/dependency-management/src/main/java/org/gradle/internal/component/external/model/LazyRuleAwareWithBaseConfigurationMetadata.java:134-137 | always true |
| LazyConfiguration.LazyRuleAwareWithBaseConfigurationMetadata.IsCanBeConsumed | subprojects/dependency-management/src/main/java/org/gradle/internal/component/external/model/LazyRuleAwareWithBaseConfigurationMetadata.java:139-142 | always true |
| LazyConfiguration.LazyRuleAwareWithBaseConfigurationMetadata.IsCanBeResolved | subprojects/dependency-management/src/main/java/org/gradle/internal/component/external/model/LazyRuleAwareWithBaseConfigurationMetadata.java:144-147 | always false |
| LazyConfiguration.LazyRuleAwareWithBaseConfigurationMetadata.GetConsumptionAlternatives | subprojects/dependency-management/src/main/java/org/gradle/internal/component/external/model/LazyRuleAwareWithBaseConfigurationMetadata.java:149-152 | always empty |
| LazyConfiguration.RuleOverlayOnObject | subprojects/dependency-management/src/main/java/org/gradle/internal/component/external/model/LazyRuleAwareWithBaseConfigurationMetadata.java:67-73 | on an object backed by two dependencies under an appending rule, two getDependencies calls both return the two plus the appended one |

## Left out

- `artifact(IvyArtifactName)` (lines 114-117): it only hands the component id and the name to the `DefaultModuleComponentArtifactMetadata` constructor, which is not part of this model.
- AsDescribable: the display name is kept as its three parts; how `Describables.of` renders them as text is not modelled.
- The base configuration is a fixed value. In the source it is another configuration whose getters may compute lazily themselves; only the values they return matter here.
- The variant metadata rules are total deterministic functions of the variant's name and the seed. How rules are registered, matched and executed is not modelled, and the source passes the configuration object itself rather than its name.
- Exceptions thrown by a rule or by the base are not modelled: the transforms always return. In the source such an exception leaves the slot empty, so a later call tries again.
- A rule returning `null` would make the source recompute on every call. The model's slots are `Option` values and a rule always returns a value.
- Thread safety: the source's check-then-set on the memo fields is unsynchronised, and concurrent first calls race. The model is single-threaded.
- `componentLevelAttributes` is a non-final field in the source but is assigned only in the constructor, so it is a `const` here.
- Value types (dependencies, attributes, artifacts, capabilities, component id) are small datatypes, `seq` and `map`. Guava's immutable collections are not modelled.
