/**
 * The model and builder classes of the bug-12585 fixture (test.php), with their relation and
 * `query()` methods, as reflection data, and the callback types the extension gives for its calls.
 */
module Fixtures {
  import opened Wrappers
  import opened HostTypes
  import opened RelationPath
  import opened BuilderTypes
  import opened RelationParameterExtension

  const User: string := "Bug12585\\User"
  const Post: string := "Bug12585\\Post"
  const PostBuilder: string := "Bug12585\\PostBuilder"
  const HasMany: string := "Bug12585\\HasMany"
  const BelongsTo: string := "Bug12585\\BelongsTo"

  /** `User::posts(): HasMany<Post, $this>` seen on `User`. */
  const UserPosts: Ty := Relation(HasMany, [Post], [User])
  /** `Post::user(): BelongsTo<User, $this>` seen on `Post`. */
  const PostUser: Ty := Relation(BelongsTo, [User], [Post])

  /** The relation methods and `query()` of the fixture's models, keyed by lower-cased name
      (the inherited `Model::belongsTo`/`Model::hasMany` factories are not listed). `User`
      inherits `Model::query(): Builder<static>`; `Post` redeclares it to return the
      non-generic `PostBuilder`; only the base `Builder` is generic. */
  const Fixture: Reflection := Reflection(map[
    User := ClassInfo(
      map["posts" := UserPosts, "query" := Builder(BuilderClass, Some({User}))],
      Some(QueryReturn([BuilderClass, User], [BuilderClass], "Bug12585\\Builder<Bug12585\\User>")),
      false),
    Post := ClassInfo(
      map["user" := PostUser, "query" := Builder(PostBuilder, None)],
      Some(QueryReturn([PostBuilder], [PostBuilder], PostBuilder)),
      false),
    BuilderClass := ClassInfo(map[], None, true),
    PostBuilder := ClassInfo(map[], None, false)
  ])

  const WhereHas: MethodReflection := MethodReflection("whereHas", {BuilderClass})
  const WithWhereHas: MethodReflection := MethodReflection("withWhereHas", {BuilderClass})

  /** A call with a literal relation path and a callback. */
  function CallOn(models: seq<string>, path: string): MethodCall {
    MethodCall(models, [Arg(None, ConstantStrings([path])), Arg(None, Other("Closure"))])
  }

  function QueryClosure(paramType: set<Ty>): ClosureType {
    ClosureType([ClosureQueryParameter("query", paramType)], Mixed)
  }

  /** Both fixture calls are supported; a differently cased name or another method is not. */
  lemma SupportedFixtureMethods()
    ensures IsMethodSupported(WhereHas) && IsMethodSupported(WithWhereHas)
    ensures !IsMethodSupported(MethodReflection("WhereHas", {BuilderClass}))
    ensures !IsMethodSupported(MethodReflection("where", {BuilderClass}))
    ensures !IsMethodSupported(MethodReflection("whereHas", {"Bug12585\\Model"}))
  {
  }

  /** With one literal path, the relation list is the walk of that path. */
  lemma SinglePathRelations(env: Reflection, models: seq<string>, path: string)
    ensures RelationsOfCall(env, CallOn(models, path)) == Walk(env, models, Explode(path))
  {
    RelationsOfCallDecomposes(env, CallOn(models, path));
    assert [path][..0] == [];
  }

  /** A path that walks to one relation gives that relation and its related models. */
  lemma OneRelationWalked(env: Reflection, models: seq<string>, path: string, r: Ty)
    requires Walk(env, models, Explode(path)) == [r]
    ensures RelationsOfCall(env, CallOn(models, path)) == [r]
    ensures ModelsOf(RelationsOfCall(env, CallOn(models, path))) == RelatedModelNames(r)
  {
    SinglePathRelations(env, models, path);
    assert [r][..0] == [];
  }

  /** A path that walks to no relation leaves the callback unrefined. */
  lemma NothingWalked(env: Reflection, m: MethodReflection, models: seq<string>, path: string)
    requires Walk(env, models, Explode(path)) == []
    ensures CallbackType(env, m, CallOn(models, path)) == Success(None)
  {
    SinglePathRelations(env, models, path);
  }

  /** The callback type once the relations and the builder union are known. */
  lemma CallbackFrom(env: Reflection, m: MethodReflection, call: MethodCall, relations: seq<Ty>, builders: set<Ty>)
    requires RelationsOfCall(env, call) == relations
    requires ModelsOf(relations) != []
    requires BuilderTypeForModels(env, ModelsOf(relations)) == Success(builders)
    ensures CallbackType(env, m, call) == Success(Some(QueryClosure(
      if m.name == "withWhereHas" then builders + (set r | r in relations) else builders)))
  {
  }

  lemma StepOverOne(env: Reflection, m: string, name: string)
    ensures StepOver(env, [m], name)
         == if HasMethod(env, m, name) && IsRelation(MethodReturnType(env, m, name))
            then ([MethodReturnType(env, m, name)], RelatedModelNames(MethodReturnType(env, m, name)))
            else ([], [])
  {
    assert [m][..0] == [];
    var prev := StepOver(env, [], name);
    assert prev == ([], []);
    if HasMethod(env, m, name) && IsRelation(MethodReturnType(env, m, name)) {
      var t := MethodReturnType(env, m, name);
      assert StepOver(env, [m], name) == (prev.0 + [t], prev.1 + RelatedModelNames(t));
      assert prev.0 + [t] == [t] && prev.1 + RelatedModelNames(t) == RelatedModelNames(t);
    } else {
      assert StepOver(env, [m], name) == prev;
    }
  }

  /** A single model is filed alone under its builder key. */
  lemma GroupOne(env: Reflection, m: string, key: string)
    requires DetermineBuilderName(env, m) == Success(key)
    ensures GroupByBuilder(env, Dedup([m])) == Success(Grouping([key], map[key := [m]]))
  {
    assert [m][..0] == [];
    assert Dedup([m]) == [m];
    assert GroupByBuilder(env, []) == Success(Grouping([], map[]));
    assert AddToGroup(Grouping([], map[]), key, m) == Grouping([key], map[key := [m]]);
  }

  /** The one group of a single model gives one builder type. */
  lemma TypesOne(env: Reflection, m: string, key: string)
    requires key in env.classes
    ensures BuilderTypesOf(env, Grouping([key], map[key := [m]]), [key])
         == Success({if env.classes[key].isGeneric then Builder(key, Some({m})) else Builder(key, None)})
  {
    var g := Grouping([key], map[key := [m]]);
    assert [key][..0] == [];
    assert BuilderTypesOf(env, g, []) == Success({});
    assert (set x | x in [m]) == {m};
    var t := BuilderTypeFor(env, key, [m]).value;
    assert BuilderTypesOf(env, g, [key]) == Success({} + {t});
    var none: set<Ty> := {};
    assert none + {t} == {t};
  }

  /** A single model with a builder key naming a known class gives that one builder type. */
  lemma BuilderUnionOne(env: Reflection, m: string, key: string)
    requires DetermineBuilderName(env, m) == Success(key) && key in env.classes
    ensures BuilderTypeForModels(env, [m])
         == Success({if env.classes[key].isGeneric then Builder(key, Some({m})) else Builder(key, None)})
  {
    GroupOne(env, m, key);
    TypesOne(env, m, key);
  }

  lemma ExplodeSingle(path: string)
    requires '.' !in path
    ensures Explode(path) == [path]
  {
    ExplodeAfterPiece(path, "");
  }

  lemma ExplodePair(first: string, second: string)
    requires '.' !in first && '.' !in second
    ensures Explode(first + "." + second) == [first, second]
  {
    ExplodeAfterPiece(first, second);
    ExplodeAfterPiece(second, "");
  }

  /** `Post` is the only model under the non-generic `PostBuilder`. */
  lemma PostBuilderUnion(env: Reflection)
    requires env == Fixture
    ensures BuilderTypeForModels(env, [Post]) == Success({Builder(PostBuilder, None)})
  {
    BuilderUnionOne(env, Post, PostBuilder);
  }

  /** `User` goes under the generic base builder, instantiated over `User`. */
  lemma UserBuilderUnion(env: Reflection)
    requires env == Fixture
    ensures BuilderTypeForModels(env, [User]) == Success({Builder(BuilderClass, Some({User}))})
  {
    BuilderUnionOne(env, User, BuilderClass);
  }

  /** `User::posts()` is a relation to `Post`. */
  lemma PostsStepOnUser(env: Reflection)
    requires env == Fixture
    ensures StepOver(env, [User], "posts") == ([UserPosts], [Post])
  {
    FoldedNames();
    StepOverOne(env, User, "posts");
  }

  /** `Post::user()` is a relation to `User`. */
  lemma UserStepOnPost(env: Reflection)
    requires env == Fixture
    ensures StepOver(env, [Post], "user") == ([PostUser], [User])
  {
    FoldedNames();
    StepOverOne(env, Post, "user");
  }

  /** A one-segment walk records the relations of its one step. */
  lemma WalkOneStep(env: Reflection, models: seq<string>, name: string, acc: seq<Ty>)
    requires !Falsy(name)
    ensures WalkFrom(env, models, [name], acc) == StepOver(env, models, name).0
  {
    assert [name][1..] == [];
  }

  /** A two-segment walk is the first step followed by the second. */
  lemma WalkTwoSteps(env: Reflection, models: seq<string>, first: string, second: string)
    requires !Falsy(first) && !Falsy(second)
    ensures Walk(env, models, [first, second])
         == StepOver(env, StepOver(env, models, first).1, second).0
  {
    assert [first, second][1..] == [second];
    var step := StepOver(env, models, first);
    WalkOneStep(env, step.1, second, step.0);
  }

  /** `posts` on `User` records `HasMany<Post, User>`. */
  lemma WalkPostsOnUser(env: Reflection)
    requires env == Fixture
    ensures Walk(env, [User], ["posts"]) == [UserPosts]
  {
    PostsStepOnUser(env);
    WalkOneStep(env, [User], "posts", []);
  }

  /** `posts` on the union `User|Post`: only `User` has it. */
  lemma WalkPostsOnUserOrPost(env: Reflection)
    requires env == Fixture
    ensures Walk(env, [User, Post], ["posts"]) == [UserPosts]
  {
    PostsStepOnUser(env);
    assert [User, Post][..1] == [User];
    FoldedNames();
    assert !HasMethod(env, Post, "posts");
    assert StepOver(env, [User, Post], "posts") == ([UserPosts], [Post]);
    WalkOneStep(env, [User, Post], "posts", []);
  }

  /** `user` on `Post` records `BelongsTo<User, Post>`. */
  lemma WalkUserOnPost(env: Reflection)
    requires env == Fixture
    ensures Walk(env, [Post], ["user"]) == [PostUser]
  {
    UserStepOnPost(env);
    WalkOneStep(env, [Post], "user", []);
  }

  /** `posts.user` on `User` goes User -> Post -> User and keeps only the last step's relation. */
  lemma WalkPostsUserOnUser(env: Reflection)
    requires env == Fixture
    ensures Walk(env, [User], ["posts", "user"]) == [PostUser]
  {
    PostsStepOnUser(env);
    UserStepOnPost(env);
    WalkTwoSteps(env, [User], "posts", "user");
  }

  /** `comments` is no method of `User`. */
  lemma WalkCommentsOnUser(env: Reflection)
    requires env == Fixture
    ensures Walk(env, [User], ["comments"]) == []
  {
    FoldedNames();
    StepOverOne(env, User, "comments");
  }

  /** `query` is a method of `User`, but not a relation. */
  lemma WalkQueryOnUser(env: Reflection)
    requires env == Fixture
    ensures Walk(env, [User], ["query"]) == []
  {
    FoldedNames();
    StepOverOne(env, User, "query");
  }

  /** The segment names the fixture uses have no capitals. */
  lemma FoldedNames()
    ensures Lower("posts") == "posts" && Lower("user") == "user"
    ensures Lower("comments") == "comments" && Lower("query") == "query"
  {
    LowerFolds("posts");
    LowerFolds("user");
    LowerFolds("comments");
    LowerFolds("query");
  }

  /** `User::query()->whereHas('posts', ...)`: the callback receives the non-generic `PostBuilder`. */
  lemma WhereHasPostsOnUser(env: Reflection)
    requires env == Fixture
    ensures CallbackType(env, WhereHas, CallOn([User], "posts"))
         == Success(Some(QueryClosure({Builder(PostBuilder, None)})))
  {
    ExplodeSingle("posts");
    WalkPostsOnUser(env);
    OneRelationWalked(env, [User], "posts", UserPosts);
    PostBuilderUnion(env);
    CallbackFrom(env, WhereHas, CallOn([User], "posts"), [UserPosts], {Builder(PostBuilder, None)});
  }

  /** On a `User|Post` receiver the `Post` branch has no `posts` and is dropped silently. */
  lemma WhereHasOnUnionReceiver(env: Reflection)
    requires env == Fixture
    ensures CallbackType(env, WhereHas, CallOn([User, Post], "posts"))
         == Success(Some(QueryClosure({Builder(PostBuilder, None)})))
  {
    ExplodeSingle("posts");
    WalkPostsOnUserOrPost(env);
    OneRelationWalked(env, [User, Post], "posts", UserPosts);
    PostBuilderUnion(env);
    CallbackFrom(env, WhereHas, CallOn([User, Post], "posts"), [UserPosts], {Builder(PostBuilder, None)});
  }

  /** `Post::query()->withWhereHas('user', ...)`: the callback receives
      `BelongsTo<User, Post>|Builder<User>`. */
  lemma WithWhereHasUserOnPost(env: Reflection)
    requires env == Fixture
    ensures CallbackType(env, WithWhereHas, CallOn([Post], "user"))
         == Success(Some(QueryClosure({PostUser, Builder(BuilderClass, Some({User}))})))
  {
    ExplodeSingle("user");
    WalkUserOnPost(env);
    OneRelationWalked(env, [Post], "user", PostUser);
    UserBuilderUnion(env);
    CallbackFrom(env, WithWhereHas, CallOn([Post], "user"), [PostUser], {Builder(BuilderClass, Some({User}))});
    UnionWithOneRelation(Builder(BuilderClass, Some({User})), PostUser);
  }

  lemma UnionWithOneRelation(b: Ty, r: Ty)
    ensures {b} + (set x | x in [r]) == {r, b}
  {
    assert (set x | x in [r]) == {r};
  }

  /** `User::query()->whereHas('posts.user', ...)`: the callback receives `Builder<User>`. */
  lemma WhereHasTwoSegments(env: Reflection)
    requires env == Fixture
    ensures CallbackType(env, WhereHas, CallOn([User], "posts.user"))
         == Success(Some(QueryClosure({Builder(BuilderClass, Some({User}))})))
  {
    ExplodePair("posts", "user");
    assert "posts.user" == "posts" + "." + "user";
    WalkPostsUserOnUser(env);
    OneRelationWalked(env, [User], "posts.user", PostUser);
    UserBuilderUnion(env);
    CallbackFrom(env, WhereHas, CallOn([User], "posts.user"), [PostUser], {Builder(BuilderClass, Some({User}))});
  }

  /** `Posts` is `posts` in another case. */
  lemma CapitalisedPosts()
    ensures Lower("Posts") == "posts"
  {
    var r := Lower("Posts");
    assert r[0] == LowerChar('P') == 'p';
    assert r == "posts";
  }

  /** `Posts` finds `User::posts()` as well: method names are matched regardless of case. */
  lemma WalkCapitalisedPostsOnUser(env: Reflection)
    requires env == Fixture
    ensures Walk(env, [User], ["Posts"]) == [UserPosts]
  {
    CapitalisedPosts();
    FoldedNames();
    PostsStepOnUser(env);
    MethodLookupIgnoresCase(env, User, "Posts", "posts");
    StepOverOne(env, User, "Posts");
    WalkOneStep(env, [User], "Posts", []);
  }

  /** `User::query()->whereHas('Posts', ...)` narrows exactly as `whereHas('posts', ...)` does. */
  lemma WhereHasIgnoresCase(env: Reflection)
    requires env == Fixture
    ensures CallbackType(env, WhereHas, CallOn([User], "Posts"))
         == Success(Some(QueryClosure({Builder(PostBuilder, None)})))
  {
    ExplodeSingle("Posts");
    WalkCapitalisedPostsOnUser(env);
    OneRelationWalked(env, [User], "Posts", UserPosts);
    PostBuilderUnion(env);
    CallbackFrom(env, WhereHas, CallOn([User], "Posts"), [UserPosts], {Builder(PostBuilder, None)});
  }

  /** A segment no model has, or a method that is not a relation, leaves the callback unrefined. */
  lemma UnknownSegmentGivesNoRefinement(env: Reflection)
    requires env == Fixture
    ensures CallbackType(env, WhereHas, CallOn([User], "comments")) == Success(None)
    ensures CallbackType(env, WhereHas, CallOn([User], "query")) == Success(None)
  {
    ExplodeSingle("comments");
    ExplodeSingle("query");
    WalkCommentsOnUser(env);
    WalkQueryOnUser(env);
    NothingWalked(env, WhereHas, [User], "comments");
    NothingWalked(env, WhereHas, [User], "query");
  }

  /** A falsy first segment, or a non-literal string, leaves the callback unrefined. */
  lemma FalsyOrDynamicPathGivesNoRefinement(env: Reflection)
    requires env == Fixture
    ensures CallbackType(env, WhereHas, CallOn([User], "0.posts")) == Success(None)
    ensures CallbackType(env, WhereHas, MethodCall([User], [Arg(None, Other("string"))])) == Success(None)
  {
    ExplodePair("0", "posts");
    assert "0.posts" == "0" + "." + "posts";
    assert Walk(env, [User], ["0", "posts"]) == [];
    NothingWalked(env, WhereHas, [User], "0.posts");
    RelationsOfCallDecomposes(env, MethodCall([User], [Arg(None, Other("string"))]));
  }

  /** A relation argument named `relation` is used even after a named non-relation argument;
      a `...` placeholder is skipped. */
  lemma NamedRelationArgument()
    ensures FirstRelationArgument([VariadicPlaceholder, Arg(Some("callback"), Other("Closure")),
                                   Arg(Some("relation"), ConstantStrings(["posts"]))])
         == Some(ConstantStrings(["posts"]))
  {
  }
}
