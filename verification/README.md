# ConfigurationPropertySourcesPropertySource, modelled in Dafny

Spring Boot's `ConfigurationPropertySourcesPropertySource` is a `PropertySource`
that exposes an ordered sequence of `ConfigurationPropertySource`s to anything
that resolves properties by plain string name. Given a raw name it parses the
name leniently into a `ConfigurationPropertyName`, asks the configuration
property sources in their iteration order, and takes the first
`ConfigurationProperty` any of them returns. `getProperty` reports that
property's value and `getOrigin` its origin. A name that does not parse, or
a parse or search that throws an `Exception`, gives `null`.

The model is functional:

- `wrappers.dfy` — `Option`, standing for a Java reference that may be `null`.
- `property_types.dfy` — canonical `Name`, `Origin`, the immutable
  `ConfigurationProperty` record, and `Outcome`: how a call into code outside
  the model ends (`Returns(result)`, `ReturnsNull`, or `Throws`, an `Exception`). A source is a
  function `Name -> Outcome<ConfigurationProperty<V>>`. Lenient name parsing
  is a function `string -> Outcome<Name>`. Both are parameters of every
  operation. `OriginFrom` is `Origin.from` applied to a lookup result.
- `sources_property_source.dfy` — the class itself. `FirstMatch` is the loop over the
  sources; `FirstMatchIsFirstAnswer` characterises it by `IsFirstAnswer`: the first
  source whose lookup is not `null`. `FindByName` and `Find` are the two
  `findConfigurationProperty` overloads. `GetProperty` and `GetOrigin` are the two public
  projections. `FindConfigurationProperty` is the same search written as a loop
  that also counts how many sources it asked.
- `lookup_properties.dfy` — lemmas relating several lookups: appending sources,
  shared prefixes, faults, value/origin agreement, and the absence of cached state.

The `try`/`catch` wraps the whole search, so a source that throws before any
source has produced the property makes the lookup absent. The faulting source
is not skipped, and later sources are not tried, even one that holds the
property. `FaultBeforeHitIsAbsent` and the example `FaultHidesLaterSource`
state this.

## Model

| member | source | states |
|---|---|---|
| ConfigurationPropertySourcesPropertySource.FirstMatchIsFirstAnswer | spring-boot-project/spring-boot/src/main/java/org/springframework/boot/context/properties/source/ConfigurationPropertySourcesPropertySource.java:87-94 | the result is `null` exactly when every source returns `null`; otherwise it is the answer (property or exception) of the first source whose lookup is not `null` |
| ConfigurationPropertySourcesPropertySource.FindByName | spring-boot-project/spring-boot/src/main/java/org/springframework/boot/context/properties/source/ConfigurationPropertySourcesPropertySource.java:82-95 | a `null` name yields `null`; otherwise the result is `null` exactly when every source returns `null`, and else it is the answer (property or exception) of the first source whose lookup is not `null` |
| ConfigurationPropertySourcesPropertySource.FindConfigurationProperty | spring-boot-project/spring-boot/src/main/java/org/springframework/boot/context/properties/source/ConfigurationPropertySourcesPropertySource.java:82-95 | the loop asks no source for a `null` name; otherwise it asks sources only up to and including the first that answers (all of them when none does), and its result agrees with the first-match search |
| ConfigurationPropertySourcesPropertySource.Find | spring-boot-project/spring-boot/src/main/java/org/springframework/boot/context/properties/source/ConfigurationPropertySourcesPropertySource.java:68-75 | a name that does not parse or whose parsing throws gives absent; otherwise a property is found exactly when some source is the winner (first non-null answer, and that answer is a property), and it is that source's property; an `Exception` never escapes |
| ConfigurationPropertySourcesPropertySource.GetProperty | spring-boot-project/spring-boot/src/main/java/org/springframework/boot/context/properties/source/ConfigurationPropertySourcesPropertySource.java:53-56 | the value is present exactly when a winning source exists, and it is the winning property's value; otherwise `null` |
| ConfigurationPropertySourcesPropertySource.GetOrigin | spring-boot-project/spring-boot/src/main/java/org/springframework/boot/context/properties/source/ConfigurationPropertySourcesPropertySource.java:64-66 | the origin is the winning source's property's origin; with no winner it is `null` |
| LookupProperties.FirstMatchAppend | spring-boot-project/spring-boot/src/main/java/org/springframework/boot/context/properties/source/ConfigurationPropertySourcesPropertySource.java:87-94 | searching `front + back` gives the result of `front` unless every source of `front` returned `null`, in which case it gives the result of `back` |
| LookupProperties.FindAppendAfterHit | spring-boot-project/spring-boot/src/main/java/org/springframework/boot/context/properties/source/ConfigurationPropertySourcesPropertySource.java:87-93 | appending sources after a found property changes neither the property, its value nor its origin |
| LookupProperties.OnlyPrefixMatters | spring-boot-project/spring-boot/src/main/java/org/springframework/boot/context/properties/source/ConfigurationPropertySourcesPropertySource.java:87-93 | any source sequence sharing the prefix up to and including the first answering source gives the same property, value and origin |
| LookupProperties.FaultBeforeHitIsAbsent | spring-boot-project/spring-boot/src/main/java/org/springframework/boot/context/properties/source/ConfigurationPropertySourcesPropertySource.java:68-95 | when the first source that answers throws, the lookup is absent whatever sources follow |
| LookupProperties.AllNullIsAbsent | spring-boot-project/spring-boot/src/main/java/org/springframework/boot/context/properties/source/ConfigurationPropertySourcesPropertySource.java:87-94 | when every source returns `null` for the parsed name, property, value and origin are all absent |
| LookupProperties.ValueAndOriginAgree | spring-boot-project/spring-boot/src/main/java/org/springframework/boot/context/properties/source/ConfigurationPropertySourcesPropertySource.java:53-66 | when a property is found, `getProperty` gives its value and `getOrigin` its origin, and it is the winning source's property |
| LookupProperties.LookupDependsOnlyOnAnswers | spring-boot-project/spring-boot/src/main/java/org/springframework/boot/context/properties/source/ConfigurationPropertySourcesPropertySource.java:68-95 | with the same parse of the raw name and the same source answers, the property, value and origin are the same: nothing is cached between calls |
| LookupProperties.FaultHidesLaterSource | spring-boot-project/spring-boot/src/main/java/org/springframework/boot/context/properties/source/ConfigurationPropertySourcesPropertySource.java:68-95 | concretely: a throwing first source hides a second source holding `y`, which on its own would be found |

## Left out

- Name parsing and normalisation (`ConfigurationPropertyName.of`): its code is not part of this model. It is an arbitrary parameter returning a name, `null` or an exception. Strict parsing is not used by this class and is not modelled.
- The internals of each `ConfigurationPropertySource`: each is an arbitrary lookup function returning a property, `null` or an exception.
- `Origin.from` is modelled only for the arguments this class passes it: `null`, or a `ConfigurationProperty`, whose own origin it reports.
- The constructor (line 43) and the `PropertySource` base class, `Environment` and `PropertyResolver` wiring: framework plumbing, not lookup logic.
- The `Iterable` of sources is a Dafny sequence read once per call. Concurrent mutation of that iterable or of a source during a lookup is not modelled.
- Exceptions carry no payload in the model: the code discards them.
- Only `Exception`s are caught. An `Error` thrown by name parsing or by a source escapes `getProperty` and `getOrigin`; the model has no outcome for it, so this propagation is not modelled.
- Purity (no mutation, equal inputs give equal results) holds by construction, because every operation is a Dafny function. `LookupDependsOnlyOnAnswers` states the non-trivial part: no state is cached between calls.
