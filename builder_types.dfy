/**
 * From related models to the builder type the callback receives:
 * `determineBuilderName` (extension.php:160-177) and `getBuilderTypeForModels`
 * (extension.php:183-213).
 */
module BuilderTypes {
  import opened Wrappers
  import opened HostTypes

  /**
   * The builder key of a model class, from the declared return type of its native `query()`:
   * the base builder if that type refers to it, else the one object class it names, else its
   * description. An unknown class or a missing `query()` is the host's exception.
   */
  function DetermineBuilderName(env: Reflection, modelClass: string): (r: Result<string, HostError>)
    ensures modelClass !in env.classes ==> r == Failure(ClassNotFound(modelClass))
    ensures modelClass in env.classes && env.classes[modelClass].nativeQuery.None? ==>
      r == Failure(MissingNativeMethod(modelClass, "query"))
    ensures r.Success? ==>
      modelClass in env.classes && env.classes[modelClass].nativeQuery.Some? &&
      var q := env.classes[modelClass].nativeQuery.value;
      (BuilderClass in q.referencedClasses ==> r.value == BuilderClass) &&
      (BuilderClass !in q.referencedClasses && |q.objectClassNames| == 1 ==> r.value == q.objectClassNames[0]) &&
      (BuilderClass !in q.referencedClasses && |q.objectClassNames| != 1 ==> r.value == q.description)
  {
    if modelClass !in env.classes then Failure(ClassNotFound(modelClass))
    else match env.classes[modelClass].nativeQuery
      case None => Failure(MissingNativeMethod(modelClass, "query"))
      case Some(q) =>
        if BuilderClass in q.referencedClasses then Success(BuilderClass)
        else if |q.objectClassNames| == 1 then Success(q.objectClassNames[0])
        else Success(q.description)
  }

  predicate NoDuplicates(s: seq<string>) {
    forall i, j :: 0 <= i < j < |s| ==> s[i] != s[j]
  }

  /** The distinct elements of `s`, first occurrences first (`array_unique` followed by
      keying `$mappedModels` by class name). */
  function Dedup(s: seq<string>): (d: seq<string>)
    ensures forall x :: x in d <==> x in s
    ensures NoDuplicates(d)
  {
    if s == [] then []
    else
      var prev := Dedup(s[..|s| - 1]);
      if s[|s| - 1] in prev then prev else prev + [s[|s| - 1]]
  }

  /** `x` occurs in `s` before position `k`. */
  predicate OccursBefore(s: seq<string>, x: string, k: int) {
    exists l :: 0 <= l < k && l < |s| && s[l] == x
  }

  /** Every occurrence in `s` of a later element of `d` comes after some occurrence of each
      earlier element of `d`. */
  predicate InFirstOccurrenceOrder(s: seq<string>, d: seq<string>) {
    forall i, j, k :: 0 <= i < j < |d| && 0 <= k < |s| && s[k] == d[j] ==> OccursBefore(s, d[i], k)
  }

  /** `Dedup` lists the distinct elements in the order they first occur. */
  lemma {:induction false} DedupKeepsFirstOrder(s: seq<string>)
    ensures InFirstOccurrenceOrder(s, Dedup(s))
  {
    if s != [] {
      var init := s[..|s| - 1];
      var x := s[|s| - 1];
      var prev := Dedup(init);
      DedupKeepsFirstOrder(init);
      var d := Dedup(s);
      forall i, j, k | 0 <= i < j < |d| && 0 <= k < |s| && s[k] == d[j]
        ensures OccursBefore(s, d[i], k)
      {
        if j < |prev| {
          assert d[j] == prev[j] && d[i] == prev[i];
          assert prev[j] in init;
          var k' :| 0 <= k' < |init| && init[k'] == prev[j];
          if k < k' {
            assert init[k] == prev[j];
            k' := k;
          }
          assert OccursBefore(init, prev[i], k');
          var l :| 0 <= l < k' && l < |init| && init[l] == prev[i];
          assert s[l] == d[i];
        } else {
          assert d == prev + [x] && d[j] == x && x !in init;
          assert k == |s| - 1;
          assert d[i] == prev[i] && d[i] in init;
          var l :| 0 <= l < |init| && init[l] == d[i];
          assert s[l] == d[i];
        }
      }
    }
  }

  /** `$groupedByBuilder`: builder keys in insertion order, and the models filed under each. */
  datatype Grouping = Grouping(keys: seq<string>, members: map<string, seq<string>>)

  predicate WellFormed(g: Grouping) {
    NoDuplicates(g.keys) && g.members.Keys == set k | k in g.keys
  }

  /** `$groupedByBuilder[$key][] = $model`. */
  function AddToGroup(g: Grouping, key: string, model: string): (h: Grouping)
    requires WellFormed(g)
    ensures WellFormed(h)
  {
    if key in g.members then Grouping(g.keys, g.members[key := g.members[key] + [model]])
    else Grouping(g.keys + [key], g.members[key := [model]])
  }

  /** The grouping the second loop of `getBuilderTypeForModels` builds over `models`. */
  function GroupByBuilder(env: Reflection, models: seq<string>): (r: Result<Grouping, HostError>)
    ensures r.Success? ==> WellFormed(r.value)
  {
    if models == [] then Success(Grouping([], map[]))
    else match GroupByBuilder(env, models[..|models| - 1])
      case Failure(e) => Failure(e)
      case Success(g) =>
        match DetermineBuilderName(env, models[|models| - 1])
        case Failure(e) => Failure(e)
        case Success(key) => Success(AddToGroup(g, key, models[|models| - 1]))
  }

  /** The builder type for one group: the generic instantiation over the union of the group's
      models when the builder class is generic, the plain class otherwise. */
  function BuilderTypeFor(env: Reflection, key: string, models: seq<string>): Result<Ty, HostError> {
    if key !in env.classes then Failure(ClassNotFound(key))
    else if env.classes[key].isGeneric then Success(Builder(key, Some(set m | m in models)))
    else Success(Builder(key, None))
  }

  /** The union the third loop collects over the groups `keys`. */
  function BuilderTypesOf(env: Reflection, g: Grouping, keys: seq<string>): Result<set<Ty>, HostError>
    requires forall k :: k in keys ==> k in g.members
  {
    if keys == [] then Success({})
    else match BuilderTypesOf(env, g, keys[..|keys| - 1])
      case Failure(e) => Failure(e)
      case Success(ts) =>
        var k := keys[|keys| - 1];
        match BuilderTypeFor(env, k, g.members[k])
        case Failure(e) => Failure(e)
        case Success(t) => Success(ts + {t})
  }

  /** The type `getBuilderTypeForModels` returns for a list of model class names. */
  function BuilderTypeForModels(env: Reflection, models: seq<string>): Result<set<Ty>, HostError> {
    match GroupByBuilder(env, Dedup(models))
    case Failure(e) => Failure(e)
    case Success(g) => BuilderTypesOf(env, g, g.keys)
  }

  /** Every model of `models` is filed under its own builder key. */
  ghost predicate CoversModels(env: Reflection, models: seq<string>, g: Grouping) {
    forall m :: m in models ==>
      DetermineBuilderName(env, m).Success? &&
      DetermineBuilderName(env, m).value in g.members &&
      m in g.members[DetermineBuilderName(env, m).value]
  }

  /** Only models of `models` are filed, each under its own builder key. */
  ghost predicate OnlyOwnModels(env: Reflection, models: seq<string>, g: Grouping) {
    forall k, m :: k in g.members && m in g.members[k] ==>
      m in models && DetermineBuilderName(env, m) == Success(k)
  }

  /** Every model of `models` is filed under its own builder key and nothing else is filed. */
  ghost predicate FiledByKey(env: Reflection, models: seq<string>, g: Grouping) {
    CoversModels(env, models, g) &&
    (forall k :: k in g.members ==> g.members[k] != []) &&
    OnlyOwnModels(env, models, g)
  }

  lemma AddToGroupCovers(env: Reflection, models: seq<string>, g: Grouping, model: string, key: string)
    requires WellFormed(g) && CoversModels(env, models, g)
    requires DetermineBuilderName(env, model) == Success(key)
    ensures CoversModels(env, models + [model], AddToGroup(g, key, model))
  {
    var h := AddToGroup(g, key, model);
    assert key in h.members && model in h.members[key];
    forall m | m in models + [model]
      ensures DetermineBuilderName(env, m).Success? && DetermineBuilderName(env, m).value in h.members
      ensures m in h.members[DetermineBuilderName(env, m).value]
    {
      if m != model {
        assert m in models;
        var k := DetermineBuilderName(env, m).value;
        assert m in g.members[k];
        if k == key {
          assert h.members[k] == g.members[k] + [model];
        } else {
          assert h.members[k] == g.members[k];
        }
      }
    }
  }

  lemma AddToGroupOnlyOwn(env: Reflection, models: seq<string>, g: Grouping, model: string, key: string)
    requires WellFormed(g) && OnlyOwnModels(env, models, g)
    requires DetermineBuilderName(env, model) == Success(key)
    ensures OnlyOwnModels(env, models + [model], AddToGroup(g, key, model))
  {
    var h := AddToGroup(g, key, model);
    var ms := models + [model];
    forall k, m | k in h.members && m in h.members[k]
      ensures m in ms && DetermineBuilderName(env, m) == Success(k)
    {
      if k == key {
        if m != model && key in g.members {
          assert h.members[k] == g.members[k] + [model];
          assert m in g.members[k];
        }
      } else {
        assert h.members[k] == g.members[k];
      }
    }
  }

  lemma AddToGroupFiles(env: Reflection, models: seq<string>, g: Grouping, model: string, key: string)
    requires WellFormed(g) && FiledByKey(env, models, g)
    requires DetermineBuilderName(env, model) == Success(key)
    ensures FiledByKey(env, models + [model], AddToGroup(g, key, model))
  {
    AddToGroupCovers(env, models, g, model, key);
    AddToGroupOnlyOwn(env, models, g, model, key);
    var h := AddToGroup(g, key, model);
    assert forall k :: k in h.members ==> h.members[k] != [] by {
      forall k | k in h.members ensures h.members[k] != [] {
        if k != key { assert h.members[k] == g.members[k]; }
      }
    }
  }

  /** Grouping succeeds exactly when every model has a builder key, and then every model is
      filed under its own key and under no other. */
  lemma {:induction false} GroupByBuilderPartitions(env: Reflection, models: seq<string>)
    ensures GroupByBuilder(env, models).Success? <==>
      forall m :: m in models ==> DetermineBuilderName(env, m).Success?
    ensures GroupByBuilder(env, models).Success? ==> FiledByKey(env, models, GroupByBuilder(env, models).value)
  {
    if models != [] {
      var init := models[..|models| - 1];
      var last := models[|models| - 1];
      GroupByBuilderPartitions(env, init);
      assert models == init + [last];
      assert forall m :: m in models <==> m in init || m == last;
      match GroupByBuilder(env, init)
      case Failure(_) =>
      case Success(g) =>
        match DetermineBuilderName(env, last)
        case Failure(_) =>
        case Success(key) =>
          AddToGroupFiles(env, init, g, last, key);
    }
  }

  /** Every builder type collected comes from one group, and each group contributes one. */
  lemma {:induction false} BuilderTypesOfMembers(env: Reflection, g: Grouping, keys: seq<string>)
    requires forall k :: k in keys ==> k in g.members
    ensures BuilderTypesOf(env, g, keys).Success? <==> forall k :: k in keys ==> k in env.classes
    ensures BuilderTypesOf(env, g, keys).Success? ==>
      forall t :: t in BuilderTypesOf(env, g, keys).value <==>
        exists k :: k in keys && BuilderTypeFor(env, k, g.members[k]) == Success(t)
  {
    if keys != [] {
      var init := keys[..|keys| - 1];
      BuilderTypesOfMembers(env, g, init);
      assert keys == init + [keys[|keys| - 1]];
      assert forall k :: k in keys <==> k in init || k == keys[|keys| - 1];
    }
  }

  /** The builder type a group contributes, in terms of the models filed under its key. */
  lemma GroupBuilderType(env: Reflection, models: seq<string>, g: Grouping, k: string, t: Ty)
    requires FiledByKey(env, models, g) && k in g.members
    requires BuilderTypeFor(env, k, g.members[k]) == Success(t)
    ensures t.Builder? && t.cls == k && k in env.classes
    ensures exists m :: m in models && DetermineBuilderName(env, m) == Success(k)
    ensures t.models == if env.classes[k].isGeneric
                        then Some(set m | m in models && DetermineBuilderName(env, m) == Success(k))
                        else None
  {
    var m0 := g.members[k][0];
    assert m0 in g.members[k];
    assert m0 in models && DetermineBuilderName(env, m0) == Success(k);
    assert (set m | m in g.members[k]) == (set m | m in models && DetermineBuilderName(env, m) == Success(k));
  }

  lemma FiledBySameMembers(env: Reflection, d: seq<string>, models: seq<string>, g: Grouping)
    requires FiledByKey(env, d, g)
    requires forall x :: x in d <==> x in models
    ensures FiledByKey(env, models, g)
  {
  }

  /** `ts` holds exactly one builder type per group of `g`. */
  ghost predicate CollectedFrom(env: Reflection, g: Grouping, ts: set<Ty>)
    requires WellFormed(g)
  {
    forall t :: t in ts <==> exists k :: k in g.keys && BuilderTypeFor(env, k, g.members[k]) == Success(t)
  }

  lemma CollectedCoversModels(env: Reflection, models: seq<string>, g: Grouping, ts: set<Ty>)
    requires WellFormed(g) && FiledByKey(env, models, g) && CollectedFrom(env, g, ts)
    requires forall k :: k in g.keys ==> k in env.classes
    ensures forall m :: m in models ==> exists t :: t in ts && t.Builder? && Success(t.cls) == DetermineBuilderName(env, m)
  {
    forall m | m in models
      ensures exists t :: t in ts && t.Builder? && Success(t.cls) == DetermineBuilderName(env, m)
    {
      var k := DetermineBuilderName(env, m).value;
      var t := BuilderTypeFor(env, k, g.members[k]).value;
      GroupBuilderType(env, models, g, k, t);
      assert t in ts;
    }
  }

  lemma CollectedShape(env: Reflection, models: seq<string>, g: Grouping, ts: set<Ty>)
    requires WellFormed(g) && FiledByKey(env, models, g) && CollectedFrom(env, g, ts)
    ensures forall t :: t in ts ==>
        t.Builder? && t.cls in env.classes &&
        (exists m :: m in models && DetermineBuilderName(env, m) == Success(t.cls)) &&
        t.models == if env.classes[t.cls].isGeneric
                    then Some(set m | m in models && DetermineBuilderName(env, m) == Success(t.cls))
                    else None
  {
    forall t | t in ts
      ensures t.Builder? && t.cls in env.classes
      ensures exists m :: m in models && DetermineBuilderName(env, m) == Success(t.cls)
      ensures t.models == if env.classes[t.cls].isGeneric
                then Some(set m | m in models && DetermineBuilderName(env, m) == Success(t.cls))
                else None
    {
      var k :| k in g.keys && BuilderTypeFor(env, k, g.members[k]) == Success(t);
      GroupBuilderType(env, models, g, k, t);
    }
  }

  lemma CollectedUnique(env: Reflection, models: seq<string>, g: Grouping, ts: set<Ty>)
    requires WellFormed(g) && FiledByKey(env, models, g) && CollectedFrom(env, g, ts)
    ensures forall t1, t2 :: t1 in ts && t2 in ts && t1.cls == t2.cls ==> t1 == t2
  {
    forall t1, t2 | t1 in ts && t2 in ts && t1.cls == t2.cls
      ensures t1 == t2
    {
      var k1 :| k1 in g.keys && BuilderTypeFor(env, k1, g.members[k1]) == Success(t1);
      var k2 :| k2 in g.keys && BuilderTypeFor(env, k2, g.members[k2]) == Success(t2);
      GroupBuilderType(env, models, g, k1, t1);
      GroupBuilderType(env, models, g, k2, t2);
    }
  }

  /**
   * The union has one builder type per distinct builder key among the models, and no other:
   * a generic builder is instantiated over exactly the models whose key it is, a non-generic
   * one is the plain class. It succeeds exactly when every model has a key naming a known class.
   */
  lemma BuilderUnionIsOnePerKey(env: Reflection, models: seq<string>)
    ensures BuilderTypeForModels(env, models).Success? <==>
      forall m :: m in models ==>
        DetermineBuilderName(env, m).Success? && DetermineBuilderName(env, m).value in env.classes
    ensures BuilderTypeForModels(env, models).Success? ==>
      var ts := BuilderTypeForModels(env, models).value;
      (forall m :: m in models ==> exists t :: t in ts && t.Builder? && Success(t.cls) == DetermineBuilderName(env, m)) &&
      (forall t :: t in ts ==>
        t.Builder? && t.cls in env.classes &&
        (exists m :: m in models && DetermineBuilderName(env, m) == Success(t.cls)) &&
        t.models == if env.classes[t.cls].isGeneric
                    then Some(set m | m in models && DetermineBuilderName(env, m) == Success(t.cls))
                    else None) &&
      (forall t1, t2 :: t1 in ts && t2 in ts && t1.cls == t2.cls ==> t1 == t2)
  {
    var d := Dedup(models);
    GroupByBuilderPartitions(env, d);
    if GroupByBuilder(env, d).Success? {
      var g := GroupByBuilder(env, d).value;
      FiledBySameMembers(env, d, models, g);
      BuilderTypesOfMembers(env, g, g.keys);
      if BuilderTypesOf(env, g, g.keys).Success? {
        var ts := BuilderTypesOf(env, g, g.keys).value;
        assert CollectedFrom(env, g, ts);
        CollectedCoversModels(env, models, g, ts);
        CollectedShape(env, models, g, ts);
        CollectedUnique(env, models, g, ts);
      } else {
        var k :| k in g.keys && k !in env.classes;
        var m := g.members[k][0];
        assert m in g.members[k];
        assert m in models && DetermineBuilderName(env, m) == Success(k);
      }
    }
  }

  /** The builder union holds builder types only. */
  lemma BuilderUnionHoldsBuilders(env: Reflection, models: seq<string>)
    ensures BuilderTypeForModels(env, models).Success? ==>
      forall t :: t in BuilderTypeForModels(env, models).value ==> t.Builder?
  {
    BuilderUnionIsOnePerKey(env, models);
  }

  /**
   * `getBuilderTypeForModels`: key the models by class name, file each under its builder key,
   * then make one builder type per key. A host exception ends the method with that failure.
   */
  method GetBuilderTypeForModels(env: Reflection, models: seq<string>) returns (r: Result<set<Ty>, HostError>)
    ensures r == BuilderTypeForModels(env, models)
  {
    var mappedModels := MapModels(models);
    var grouped := GroupModels(env, mappedModels);
    match grouped
    case Failure(e) => r := Failure(e);
    case Success(groupedByBuilder) => r := CollectBuilderTypes(env, groupedByBuilder);
  }

  /** The first loop: `$mappedModels[$model] = new ObjectType($model)` over the unique models. */
  method MapModels(models: seq<string>) returns (mappedModels: seq<string>)
    ensures mappedModels == Dedup(models)
  {
    mappedModels := [];
    for i := 0 to |models|
      invariant mappedModels == Dedup(models[..i])
    {
      assert models[..i + 1][..i] == models[..i];
      if models[i] !in mappedModels {
        mappedModels := mappedModels + [models[i]];
      }
    }
    assert models[..|models|] == models;
  }

  /** The second loop: `$groupedByBuilder[$this->determineBuilderName($class)][] = $type`. */
  method GroupModels(env: Reflection, mappedModels: seq<string>) returns (r: Result<Grouping, HostError>)
    ensures r == GroupByBuilder(env, mappedModels)
  {
    var groupedByBuilder := Grouping([], map[]);
    for i := 0 to |mappedModels|
      invariant GroupByBuilder(env, mappedModels[..i]) == Success(groupedByBuilder)
    {
      assert mappedModels[..i + 1][..i] == mappedModels[..i];
      var builderName := DetermineBuilderName(env, mappedModels[i]);
      if builderName.Failure? {
        assert GroupByBuilder(env, mappedModels[..i + 1]) == Failure(builderName.error);
        GroupFailurePersists(env, mappedModels, i + 1);
        return Failure(builderName.error);
      }
      groupedByBuilder := AddToGroup(groupedByBuilder, builderName.value, mappedModels[i]);
    }
    assert mappedModels[..|mappedModels|] == mappedModels;
    r := Success(groupedByBuilder);
  }

  /** The third loop: one builder type per key, generic over the key's models when the
      builder class is generic. */
  method CollectBuilderTypes(env: Reflection, groupedByBuilder: Grouping) returns (r: Result<set<Ty>, HostError>)
    requires WellFormed(groupedByBuilder)
    ensures r == BuilderTypesOf(env, groupedByBuilder, groupedByBuilder.keys)
  {
    var keys := groupedByBuilder.keys;
    var builderTypes: set<Ty> := {};
    for i := 0 to |keys|
      invariant BuilderTypesOf(env, groupedByBuilder, keys[..i]) == Success(builderTypes)
    {
      assert keys[..i + 1][..i] == keys[..i];
      var builder := keys[i];
      var builderType := BuilderTypeFor(env, builder, groupedByBuilder.members[builder]);
      if builderType.Failure? {
        assert BuilderTypesOf(env, groupedByBuilder, keys[..i + 1]) == Failure(builderType.error);
        TypesFailurePersists(env, groupedByBuilder, keys, i + 1);
        return Failure(builderType.error);
      }
      builderTypes := builderTypes + {builderType.value};
    }
    assert keys[..|keys|] == keys;
    r := Success(builderTypes);
  }

  /** Once a host exception is raised for a prefix, the whole grouping fails with it. */
  lemma {:induction false} GroupFailurePersists(env: Reflection, models: seq<string>, n: nat)
    requires n <= |models| && GroupByBuilder(env, models[..n]).Failure?
    ensures GroupByBuilder(env, models) == GroupByBuilder(env, models[..n])
    decreases |models| - n
  {
    if n < |models| {
      assert models[..n + 1][..n] == models[..n];
      GroupFailurePersists(env, models, n + 1);
    } else {
      assert models[..n] == models;
    }
  }

  lemma {:induction false} TypesFailurePersists(env: Reflection, g: Grouping, keys: seq<string>, n: nat)
    requires forall k :: k in keys ==> k in g.members
    requires n <= |keys| && BuilderTypesOf(env, g, keys[..n]).Failure?
    ensures BuilderTypesOf(env, g, keys) == BuilderTypesOf(env, g, keys[..n])
    decreases |keys| - n
  {
    if n < |keys| {
      assert keys[..n + 1][..n] == keys[..n];
      TypesFailurePersists(env, g, keys, n + 1);
    } else {
      assert keys[..n] == keys;
    }
  }
}
