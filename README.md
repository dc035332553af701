# SpecificationExpression in Dafny

A model of the boolean specification engine of the SpecificationExpression
Unity utility. Game designers combine filters ("specifications") over game
entities such as items, enemies and cards. The model has four parts:

- **Specification** (`Specification.dfy`): a specification is a value of the
  datatype `Spec<T>`. Its constructors are `True`, `False`, `And`, `Or`, `Not`
  and `Atom` (a leaf predicate). `Eval` gives the usual logical meaning. The
  C# base class `Specification<T>` builds the same trees as LINQ expression
  trees. `OrAll` is the OR-fold seeded with FALSE and `AndAll` is the AND-fold
  seeded with TRUE. Lemmas prove what each fold means and the algebraic laws
  of the combinators.
- **Query builder** (`SearchQueryBuilder.dfy`): `SearchQueryBuilder<T>` is a
  class whose field `finalSpec` starts as TRUE. `AddOrGroup`, `AddFilter` and
  `Exclude` reassign that field and return the same builder. `AddOrGroup`
  keeps the source's fold loop, with its invariant. `Build` returns a callable
  test that captures the current specification and leaves the builder
  unchanged.
- **Dynamic property specification** (`DynamicPropertySpec.dfy`): the triple
  (property name, operator, value) is evaluated against an entity. An entity
  is a map from field name to a tagged value (`IntV` or `StrV`). Evaluation
  looks the name up, converts the literal to the field's type
  (`Convert.ChangeType`) and applies `Equal`, `GreaterThan`, `LessThan` or
  `Contains`. Each step can fail with its own error: `FieldNotFound`,
  `ConversionFailed` or `OperatorNotDefined`. `ToSpecification` is the
  type-level form (`ToExpression`): it resolves the triple against an entity
  type's schema and yields a composable `Spec`.
- **Leaf specifications** (`SpecificationCollection.dfy`): `ItemRaritySpec`,
  `ItemNameContainsSpec` and `EnemyIsAggressiveSpec` are atoms over small
  records. The module also covers the auto-loot example: rare enough and not
  cursed.

`Strings.dfy` models the library behaviour the engine relies on. This is
ordinal `string.Contains` and the two conversions between a 32-bit `int` and
its decimal string. `QueryScenario.dfy` builds the card query sketched next to
the builder through the builder methods and proves its four verdicts.

The constructor arguments of a dynamic specification are the fields of an
immutable datatype value. `Evaluate` is a function, so evaluating the same
specification on the same entity always gives the same result.

Two details of the code shape the model:
- `GreaterThan` and `LessThan` on a string field are `OperatorNotDefined`,
  because `Expression.GreaterThan` is not defined for `string`.
- `ComparisonOperator` has no greater-or-equal, so the card scenario writes
  `Attack >= 50` as `GreaterThan 49`.

## Model

| member | source | states |
|---|---|---|
| `Specification.SeedsAreIdentities` | SpecificationExpression/Modules/DynamicSearch/SearchQueryBuilder.cs:55-63 | the TRUE seed accepts and the FALSE seed rejects every entity. TRUE is the identity of AND and FALSE the identity of OR, on either side, so seeding a fold with them changes nothing |
| `Specification.AndOrAssociative` | SpecificationExpression/Modules/DynamicSearch/SearchQueryBuilder.cs:18-30 | successive ANDs (and ORs) mean the same however they are grouped |
| `Specification.AndOrCommutative` | SpecificationExpression/Modules/DynamicSearch/SearchQueryBuilder.cs:15 | AND and OR are commutative in meaning |
| `Specification.DeMorgan` | SpecificationExpression/Modules/DynamicSearch/SearchQueryBuilder.cs:30 | NOT of an AND is the OR of the NOTs, and dually |
| `Specification.DoubleNegation` | SpecificationExpression/Modules/DynamicSearch/SearchQueryBuilder.cs:30 | NOT(NOT p) accepts exactly what p accepts, though the tree keeps both levels |
| `Specification.OrAllHoldsIffSome` | SpecificationExpression/Modules/DynamicSearch/SearchQueryBuilder.cs:12-16 | the FALSE-seeded OR-fold of a list holds exactly when some member holds; over an empty list it holds for no entity |
| `Specification.AndAllHoldsIffEvery` | SpecificationExpression/Modules/DesignerConfig/SpecAsset.cs:18-23 | the TRUE-seeded AND-fold of a condition list holds exactly when every condition holds; over an empty list it holds for every entity |
| `SearchQuery.SearchQueryBuilder.constructor` | SpecificationExpression/Modules/DynamicSearch/SearchQueryBuilder.cs:8 | a new builder's specification is TRUE and accepts every entity |
| `SearchQuery.SearchQueryBuilder.AddOrGroup` | SpecificationExpression/Modules/DynamicSearch/SearchQueryBuilder.cs:10-20 | returns the same builder. The new specification is the old one AND the FALSE-seeded OR-fold of the group. An entity is accepted iff it was accepted before and some member of the group holds. The loop keeps "the group so far holds iff some spec in the prefix holds" |
| `SearchQuery.SearchQueryBuilder.AddFilter` | SpecificationExpression/Modules/DynamicSearch/SearchQueryBuilder.cs:22-26 | returns the same builder. An entity is accepted iff it was accepted before and the filter holds, so the accepted set never grows |
| `SearchQuery.SearchQueryBuilder.Exclude` | SpecificationExpression/Modules/DynamicSearch/SearchQueryBuilder.cs:28-32 | returns the same builder. An entity is accepted iff it was accepted before and the excluded spec does not hold |
| `SearchQuery.SearchQueryBuilder.Build` | SpecificationExpression/Modules/DynamicSearch/SearchQueryBuilder.cs:34-37 | the returned test agrees with the accumulated specification on every entity. The builder is not modified |
| `SearchQuery.FreshBuilderAcceptsAll` | SpecificationExpression/Modules/DynamicSearch/SearchQueryBuilder.cs:8 | building an unconfigured builder gives a test that accepts every entity |
| `SearchQuery.EmptyOrGroupRejectsAll` | SpecificationExpression/Modules/DynamicSearch/SearchQueryBuilder.cs:10-20 | after an empty OR-group, whatever filter and exclusion follow, the built test rejects every entity |
| `SearchQuery.BuildTwiceAgrees` | SpecificationExpression/Modules/DynamicSearch/SearchQueryBuilder.cs:34-37 | two builds with no change in between give tests that agree on every entity |
| `QueryScenario.CardVerdict` | SpecificationExpression/Modules/DynamicSearch/SearchQueryBuilder.cs:41-51 | all four card filters resolve against the card schema. The query (Fire OR Ice) AND Attack > 49 AND NOT Spell accepts a card exactly when its fields satisfy that condition |
| `QueryScenario.CardQueryExample` | SpecificationExpression/Modules/DynamicSearch/SearchQueryBuilder.cs:41-51 | the test built by the builder from the card filters accepts the Fire/60/Creature card. It rejects Water/90/Creature, Ice/40/Creature and Fire/70/Spell |
| `DynamicProperty.ChangeType` | SpecificationExpression/Modules/GenericAttribute/DynamicPropertySpec.cs:30-31 | a converted value has the target type. A value already of that type is returned unchanged. An `int` always converts |
| `DynamicProperty.ChangeTypeRoundTrip` | SpecificationExpression/Modules/GenericAttribute/DynamicPropertySpec.cs:31 | converting an `int` to a string and back gives the same `int` |
| `DynamicProperty.Resolve` | SpecificationExpression/Modules/GenericAttribute/DynamicPropertySpec.cs:30-51 | resolution succeeds iff the literal converts to the field's type and the operator is defined on that type. The resolved literal is exactly the converted value. A failed conversion is `ConversionFailed`; otherwise a failure is `OperatorNotDefined` |
| `DynamicProperty.Evaluate` | SpecificationExpression/Modules/GenericAttribute/DynamicPropertySpec.cs:21-53 | evaluation fails exactly when the name is not a field, or the literal does not convert to the field's type, or the operator is not defined on that type |
| `DynamicProperty.UnknownFieldIsError` | SpecificationExpression/Modules/GenericAttribute/DynamicPropertySpec.cs:27 | an unknown property name is a `FieldNotFound` error, never a silent false |
| `DynamicProperty.UnconvertibleLiteralIsError` | SpecificationExpression/Modules/GenericAttribute/DynamicPropertySpec.cs:30-31 | a failed conversion happens only for a string literal against an `int` field, and is a `ConversionFailed` error |
| `DynamicProperty.OperatorMismatchIsError` | SpecificationExpression/Modules/GenericAttribute/DynamicPropertySpec.cs:41-49 | ordering a string field, or `Contains` on an `int` field, is an `OperatorNotDefined` error |
| `DynamicProperty.EqualMeaning` | SpecificationExpression/Modules/GenericAttribute/DynamicPropertySpec.cs:38-39 | with `Equal` the verdict is "field value equals the converted literal" |
| `DynamicProperty.OrderMeaning` | SpecificationExpression/Modules/GenericAttribute/DynamicPropertySpec.cs:41-45 | on an `int` field, `GreaterThan` and `LessThan` are strict comparisons with the converted literal |
| `DynamicProperty.ContainsMeaning` | SpecificationExpression/Modules/GenericAttribute/DynamicPropertySpec.cs:47-49 | on a string field, `Contains` holds iff the converted literal is a substring of the field value |
| `DynamicProperty.IntLiteralAgainstStringField` | SpecificationExpression/Modules/GenericAttribute/DynamicPropertySpec.cs:31 | an `int` literal compared to a string field is compared as its decimal rendering |
| `DynamicProperty.ToSpecification` | SpecificationExpression/Modules/GenericAttribute/DynamicPropertySpec.cs:21-53 | a name that is not in the schema is `FieldNotFound`. Otherwise resolution succeeds iff the literal converts to the field's type and the operator applies to it. The resulting specification accepts an entity of the schema exactly when evaluating the triple on it succeeds with true |
| `DynamicProperty.ToSpecificationAgrees` | SpecificationExpression/Modules/GenericAttribute/DynamicPropertySpec.cs:21-53 | for an entity of the schema's shape, resolving against the schema fails exactly when evaluating on the entity fails, with the same error. Otherwise the resolved specification's verdict is the evaluation's |
| `DynamicProperty.LowHealthExample` | SpecificationExpression/Modules/GenericAttribute/DynamicPropertySpec.cs:58-64 | ("Health", LessThan, 50) accepts exactly the entities whose Health is below 50, both evaluated directly and as a resolved specification |
| `DynamicProperty.NonNumericLiteralExample` | SpecificationExpression/Modules/GenericAttribute/DynamicPropertySpec.cs:30-31 | the literal "abc" against an `int` field is a conversion error |
| `Strings.ParseIntToString` | SpecificationExpression/Modules/GenericAttribute/DynamicPropertySpec.cs:31 | parsing the decimal rendering of any 32-bit `int` gives that `int` back |
| `Strings.DigitsOfNat` | SpecificationExpression/Modules/GenericAttribute/DynamicPropertySpec.cs:31 | the digits written for a natural number read back as that number |
| `Strings.ParseRejectsNonDigit` | SpecificationExpression/Modules/GenericAttribute/DynamicPropertySpec.cs:31 | a string with a non-digit after its first character does not parse as an `int` |
| `Strings.EmptyIsSubstring` | SpecificationExpression/Example/SpecificationCollection.cs:24 | the empty string is contained in every string |
| `Strings.SliceIsSubstring` | SpecificationExpression/Example/SpecificationCollection.cs:24 | every slice of a string is contained in it |
| `Strings.LongerIsNotSubstring` | SpecificationExpression/Example/SpecificationCollection.cs:24 | a needle longer than the haystack is never contained in it |
| `SpecificationCollection.ItemRaritySpec` | SpecificationExpression/Example/SpecificationCollection.cs:6-15 | accepts an item iff its rarity is at least the threshold |
| `SpecificationCollection.RarityMonotone` | SpecificationExpression/Example/SpecificationCollection.cs:13 | an item accepted at some threshold is accepted at every lower threshold |
| `SpecificationCollection.ItemNameContainsSpec` | SpecificationExpression/Example/SpecificationCollection.cs:17-26 | accepts an item iff the keyword is a substring of its name |
| `SpecificationCollection.EmptyKeywordMatchesAll` | SpecificationExpression/Example/SpecificationCollection.cs:24 | the empty keyword accepts every item |
| `SpecificationCollection.EnemyIsAggressiveSpec` | SpecificationExpression/Example/SpecificationCollection.cs:28-33 | accepts an enemy iff its aggro range is above 10 and its damage is above 50 |
| `SpecificationCollection.AggressiveThresholdsStrict` | SpecificationExpression/Example/SpecificationCollection.cs:32 | an enemy with aggro range exactly 10 or damage exactly 50 is not aggressive |
| `SpecificationCollection.CursedItemsRejected` | SpecificationExpression/Example/SpecificationExpressionExample.cs:19-22 | no item whose name contains "Cursed" passes `rarity >= 4 AND NOT name contains "Cursed"`, however rare it is |
| `SpecificationCollection.HolySwordNotCursed` | SpecificationExpression/Example/SpecificationExpressionExample.cs:28 | "Cursed" does not occur in "Holy Sword" |
| `SpecificationCollection.LootScenario` | SpecificationExpression/Example/SpecificationExpressionExample.cs:19-29 | the Holy Sword (rarity 5) passes the loot filter. The Cursed Blade (5) and the Cursed Dagger (2) do not |

## Left out

- The `Specification<T>` base class is not part of this model's sources. Its `And`, `Or`, `Not` and `IsSatisfiedBy` are the constructors of `Spec` and the function `Eval`, with the usual logical meaning.
- Expression trees, `ToExpression` as a translatable tree and `Compile()` are left out. Specifications are evaluated directly, and `Build` returns a function value.
- Reflection over entity types is left out. An entity is a closed map from field name to tagged value, and a field's type is its value's tag. `ToSpecification` resolves against an explicit schema, which stands for the static type.
- DynamicProperty.Evaluate / DynamicProperty.UnknownFieldIsError: look names up by exact key. The source binds the name with `Expression.PropertyOrField`, which ignores case (and fails on an ambiguous match), so `"health"` finds a `Health` member there but is `FieldNotFound` here. `ToSpecification` looks names up the same way.
- DynamicProperty.Evaluate: reports the three errors when it is applied to one entity. The source raises them once, when the expression is built from the static type. `ToSpecification` raises them at that point, and `ToSpecificationAgrees` shows that the two agree on entities of the schema.
- SearchQuery.SearchQueryBuilder.Build: never fails, because a dynamic specification is resolved by `ToSpecification` before it can be composed, so no builder method sees an unresolvable one. In the source the builder accepts any `Specification<T>`, and a `DynamicPropertySpec` only stores its three arguments when constructed. An unknown name, an unconvertible literal or an inapplicable operator therefore makes `Build()` throw (SearchQueryBuilder.cs:36). If the base class, which is not part of this model, builds expressions eagerly, the throw happens instead in the `And` that adds the specification (lines 18, 24, 30).
- DynamicProperty.ChangeType: covers only `int` and `string`. It leaves out other numeric types, `bool`, `null`, culture-specific formats and the white space that `Int32.Parse` tolerates. A string converts to an `int` when it is an optional `+` or `-` followed by decimal digits, in the 32-bit range.
- Short-circuit evaluation order is left out, because evaluation has no side effects here. `null` names, values and strings are left out too.
- SpecificationCollection.EnemyIsAggressiveSpec: models `aggroRange` and `damage` as integers. `EnemyExample` is not part of this model, and its `aggroRange` may be a float. `Item.rarity` is an unbounded integer, which is harmless because it is only compared.
- SearchQuery.SearchQueryBuilder: restricts the entity type to values, not objects allocated later, so that "every entity" means the same before and after a call. Thread safety is not modelled.
- `AndSpecAsset.GetSpec` (SpecAsset.cs) and the rest of the Unity asset wiring are left out. Its loop casts the accumulator to `TrueSpecification<T>` on each step. `Specification.AndAll` models the intended TRUE-seeded AND-fold without that cast.
- The `MonoBehaviour` example (SpecificationExpressionExample.cs) is left out: the `Start` hook, `Debug.Log` and the `AsQueryable` filtering. Only its loot specification is modelled, in `LootScenario`.
- The card search and the Health example are comments (`HowToUse`). `ElementSpec`, `MinAttackSpec` and `TypeSpec` are not part of this model, so the card scenario uses dynamic `Equal` and `GreaterThan` specifications in their place.
