# Relation-parameter closure types for Eloquent builders

This project models `EloquentBuilderRelationParameterExtension`, a PHPStan
"method parameter closure type" extension from the bug-12585 end-to-end
fixture, together with the `ClosureQueryParameter` it produces. When the
analyser meets `$builder->whereHas('posts.user', function ($query) { ... })`
or `withWhereHas(...)` on an Eloquent-style query builder, the extension
reads the relation argument, walks the dot-separated relation path across
the models' relation methods, works out which query builder class each
related model uses, and tells the analyser that the callback takes one
parameter `query` of that builder type (for `withWhereHas`, of that builder
type or the relation types themselves) and returns `mixed`.

The host analyser is not modelled: its static types are the datatype
`HostTypes.Ty`, its reflection provider is the value `HostTypes.Reflection`
(every known class, with the declared return types of its methods keyed by
lower-cased name, as PHP looks method names up regardless of case; the
return type of its native `query()` and whether it is generic), and the
analysed call is `HostTypes.MethodCall` (the receiver's model classes and
the arguments with their static types). Exceptions the reflection provider
throws (`getClass()` of an unknown class, `getNativeMethod()` of a missing
method) are `Failure(HostError)` results.

Modules:

- `Wrappers`: `Option` and `Result`.
- `HostTypes`: the reduced host types and reflection.
- `RelationPath`: `explode('.')` and the relation walk of
  `getRelationTypeFromString`.
- `BuilderTypes`: `determineBuilderName` and `getBuilderTypeForModels`.
- `RelationParameterExtension`: `isMethodSupported`,
  `getRelationsFromMethodCall`, `getModelsFromRelations`,
  `getTypeFromMethodCall` and `ClosureQueryParameter`.
- `Fixtures`: the `User`/`Post`/`PostBuilder` classes of the fixture's
  `test.php`, with their relation and `query()` methods, as reflection data, and the callback types the extension gives
  for its calls.

Each loop of the PHP code is a method whose `ensures` ties its result to a
recursive specification function; the properties of the extension are
lemmas about those functions.

## Model

| member | source | states |
|---|---|---|
| RelationParameterExtension.IsMethodSupported | e2e/bug-12585/src/extension.php:37-44 | supported exactly when the declaring class is the base builder and the name is exactly `whereHas` or `withWhereHas` |
| RelationParameterExtension.FirstRelationArgumentIsFirst | e2e/bug-12585/src/extension.php:88-97 | the argument chosen is the first one that is not a `...` placeholder and is unnamed or named `relation`; there is none exactly when no argument qualifies |
| RelationParameterExtension.SelectRelationArgument | e2e/bug-12585/src/extension.php:86-97 | the argument loop stops at exactly that first qualifying argument and yields its static type, or nothing |
| RelationParameterExtension.KeepRelations | e2e/bug-12585/src/extension.php:117-120 | the filter keeps exactly the members that are definitely relations |
| RelationParameterExtension.RelationsOfCallDecomposes | e2e/bug-12585/src/extension.php:99-120 | no relation argument gives no relations; otherwise the list is the argument's own type when it is a relation, followed by the walk of each of its literal strings; a non-literal non-relation argument gives nothing |
| RelationParameterExtension.GetRelationsFromMethodCall | e2e/bug-12585/src/extension.php:84-121 | the loops compute the relation list of the call, which holds only relation types |
| RelationParameterExtension.ModelsOfCollects | e2e/bug-12585/src/extension.php:69-81 | a class is collected exactly when it is a related model of one of the relations |
| RelationParameterExtension.GetModelsFromRelations | e2e/bug-12585/src/extension.php:69-81 | the nested loops append the related-model names of every relation in order |
| RelationParameterExtension.NoModelsNoRefinement | e2e/bug-12585/src/extension.php:49-54 | the callback type is null exactly when no related model is found, in particular when there is no relation argument |
| RelationParameterExtension.CallbackShape | e2e/bug-12585/src/extension.php:56-62 | a narrowed callback has one required, by-value, non-variadic `query` parameter without default and returns mixed; its builder part is the builder union of the related models; `withWhereHas` adds exactly the collected relations, `whereHas` adds nothing |
| RelationParameterExtension.GetTypeFromMethodCall | e2e/bug-12585/src/extension.php:46-63 | the method returns the callback type of the call, or the reflection provider's failure |
| RelationPath.Explode | e2e/bug-12585/src/extension.php:113 | splitting a path gives at least one segment and no segment contains a dot |
| RelationPath.ImplodeExplode | e2e/bug-12585/src/extension.php:113 | joining the segments with dots gives back the path |
| RelationPath.ExplodeImplode | e2e/bug-12585/src/extension.php:113 | splitting dot-joined dot-free segments gives back the segments |
| RelationPath.StepOver | e2e/bug-12585/src/extension.php:136-154 | one step records only relation types, at most one per model, and the next models are exactly their related models |
| RelationPath.StepOverRecords | e2e/bug-12585/src/extension.php:136-152 | a type is recorded exactly when some current model definitely has the method and its return type is definitely a relation; models without it, or whose method is no relation, are skipped |
| HostTypes.MethodLookupIgnoresCase | e2e/bug-12585/src/extension.php:139-143 | two spellings of a segment that differ only in ASCII case find the same method and return type |
| RelationPath.Walk | e2e/bug-12585/src/extension.php:128-158 | the walk returns only relation types |
| RelationPath.WalkStopsAtFalsySegment | e2e/bug-12585/src/extension.php:132 | the walk ignores everything from the first segment that is `""` or `"0"` on; a falsy first segment gives nothing |
| RelationPath.WalkReturnsLastStep | e2e/bug-12585/src/extension.php:130-157 | with no falsy segment, the result is the relations of the last step only, taken over the models reached by the earlier steps |
| RelationPath.WalkAfterModelsRunOut | e2e/bug-12585/src/extension.php:133-154 | once a step reaches no model, a later truthy segment yields nothing |
| RelationPath.GetRelationTypeFromString | e2e/bug-12585/src/extension.php:128-158 | the `while`/`foreach` loops compute the walk of the path from the receiver's models |
| BuilderTypes.DetermineBuilderName | e2e/bug-12585/src/extension.php:160-177 | an unknown class or a missing native `query()` is the host's exception; otherwise the base builder when the return type refers to it, else its single object class, else its description |
| BuilderTypes.Dedup | e2e/bug-12585/src/extension.php:185-195 | the models keyed by class name: the same classes, each once |
| BuilderTypes.DedupKeepsFirstOrder | e2e/bug-12585/src/extension.php:186-195 | the distinct models are listed in the order of their first occurrence |
| BuilderTypes.AddToGroup | e2e/bug-12585/src/extension.php:200 | filing a model keeps the grouping's keys distinct and matching its map |
| BuilderTypes.GroupByBuilder | e2e/bug-12585/src/extension.php:197-201 | a successful grouping has distinct keys that match its map |
| BuilderTypes.GroupByBuilderPartitions | e2e/bug-12585/src/extension.php:197-201 | grouping succeeds exactly when every model has a builder key, and then files each model under its own key and nothing else |
| BuilderTypes.BuilderUnionIsOnePerKey | e2e/bug-12585/src/extension.php:183-213 | succeeds exactly when every model's key names a known class; then one builder type per distinct key and no other, generic builders instantiated over exactly the models with that key, others the plain class |
| BuilderTypes.MapModels | e2e/bug-12585/src/extension.php:185-195 | the first loop computes the distinct models in first-occurrence order |
| BuilderTypes.GroupModels | e2e/bug-12585/src/extension.php:197-201 | the second loop computes the grouping by builder key, or the first failure |
| BuilderTypes.CollectBuilderTypes | e2e/bug-12585/src/extension.php:203-212 | the third loop computes the union of the groups' builder types, or the first failure |
| BuilderTypes.GetBuilderTypeForModels | e2e/bug-12585/src/extension.php:183-213 | the method returns the builder union of the models, or the reflection provider's failure |
| Fixtures.SupportedFixtureMethods | e2e/bug-12585/src/extension.php:31-43 | `whereHas` and `withWhereHas` on the builder are supported; another name, other casing or another declaring class are not |
| Fixtures.NamedRelationArgument | e2e/bug-12585/src/extension.php:88-96 | placeholders and other named arguments are skipped until the argument named `relation` |
| Fixtures.WhereHasPostsOnUser | e2e/bug-12585/src/test.php:139-141 | `User::query()->whereHas('posts', ...)` gives a callback over `PostBuilder` |
| Fixtures.WithWhereHasUserOnPost | e2e/bug-12585/src/test.php:146-148 | `Post::query()->withWhereHas('user', ...)` gives a callback over `BelongsTo<User, Post>` or `Builder<User>` |
| Fixtures.WhereHasOnUnionReceiver | e2e/bug-12585/src/extension.php:136-141 | on a `User` or `Post` receiver, `posts` is found on `User` only and `Post` is skipped |
| Fixtures.WalkPostsUserOnUser | e2e/bug-12585/src/extension.php:130-155 | `posts.user` from `User` keeps only the `BelongsTo<User, Post>` of the last step |
| Fixtures.WhereHasTwoSegments | e2e/bug-12585/src/extension.php:128-158 | `whereHas('posts.user', ...)` on `User` gives a callback over `Builder<User>` |
| Fixtures.WhereHasIgnoresCase | e2e/bug-12585/src/extension.php:139-143 | `whereHas('Posts', ...)` on `User` finds `posts` and narrows to `PostBuilder` like the lower-case spelling |
| Fixtures.UnknownSegmentGivesNoRefinement | e2e/bug-12585/src/extension.php:139-147 | a missing method or a method that is no relation leaves the callback unnarrowed |
| Fixtures.FalsyOrDynamicPathGivesNoRefinement | e2e/bug-12585/src/extension.php:107-132 | a path starting with `"0"`, or a non-literal string argument, leaves the callback unnarrowed |
| Fixtures.PostBuilderUnion | e2e/bug-12585/src/test.php:126-135 | `Post`'s own `query()` returns the non-generic `PostBuilder`, which is its builder type |
| Fixtures.UserBuilderUnion | e2e/bug-12585/src/test.php:35-39 | `User` inherits `query(): Builder<static>` and gets the generic builder over `User` |

## Left out

- Type normalisation by `TypeCombinator::union` is not modelled: a union is a set of `Ty`, so subsumption between members (for example a builder and its subclass) is not simplified.
- Three-valued host answers (`yes`/`maybe`/`no`) are booleans that hold only for a definite yes; a "maybe a relation" type is `Ty.Other`.
- The relation argument's type is either a relation, a union of literal strings or another type; a union mixing a relation with literal strings is not represented.
- `describe(VerbosityLevel::value())` and the other readings of `query()`'s return type are data in `QueryReturn`; how PHPStan formats a description is not modelled.
- When the builder key of `determineBuilderName` is the description fallback, the key is handed to `getClass()`, which throws unless it names a class; the model gives `Failure(ClassNotFound)` there, as the host would.
- The `string` and `TypeWithClassName` inputs of `getBuilderTypeForModels` are left out: its only caller passes a list of class-name strings.
- Method names are folded with ASCII lower-casing only, as PHP does; class names are compared exactly, because the host hands the extension canonical class names.
- The fixture data lists only the relation methods and `query()` of each model; the inherited `Model::belongsTo` and `Model::hasMany` factories are not listed, and no lemma is about them.
- `ClassReflection::is()` is abstracted as the set of class names the declaring class is (`MethodReflection.declaringClassIs`); class hierarchies are not modelled.
- Only the first variant of a method (`getVariants()[0]`) is modelled; a method always has one.
- `array_unique` with `SORT_REGULAR` compares strings loosely in PHP (numeric strings compare as numbers); class names are never numeric, so `Dedup` uses plain equality.
- The analyser's `Scope`, the parser nodes and the extension's registration with the analyser (the dynamic parameter type extension interfaces and their providers) are not part of this model; the scope's answers are the static types stored in `CallArg` and `MethodCall`.
- The `ClosureQueryParameter` getters have no contracts of their own; what they return is stated by `RelationParameterExtension.CallbackShape`.
