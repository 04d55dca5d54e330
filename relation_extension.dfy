/**
 * The relation-parameter extension itself (`EloquentBuilderRelationParameterExtension`,
 * extension.php:28-214) and the parameter it produces (`ClosureQueryParameter`,
 * extension.php:216-250).
 */
module RelationParameterExtension {
  import opened Wrappers
  import opened HostTypes
  import opened RelationPath
  import opened BuilderTypes

  /** The builder methods whose callback parameter is narrowed. */
  const SupportedMethods: seq<string> := ["whereHas", "withWhereHas"]

  /** `isMethodSupported`: the method is declared on the base builder (or a class that is one)
      and its name is exactly `whereHas` or `withWhereHas`. */
  function IsMethodSupported(m: MethodReflection): (r: bool)
    ensures r <==> BuilderClass in m.declaringClassIs && (m.name == "whereHas" || m.name == "withWhereHas")
  {
    BuilderClass in m.declaringClassIs && m.name in SupportedMethods
  }

  /** How PHPStan passes a parameter by reference. */
  datatype PassedByReference = No | ReadsArgument | CreatesNewVariable

  /** `ClosureQueryParameter`: a required, by-value, non-variadic parameter without default. */
  datatype ClosureQueryParameter = ClosureQueryParameter(name: string, paramType: set<Ty>) {
    function GetName(): string { name }
    function IsOptional(): bool { false }
    function GetType(): set<Ty> { paramType }
    function GetPassedByReference(): PassedByReference { No }
    function IsVariadic(): bool { false }
    function GetDefaultValue(): Option<Ty> { None }
  }

  /** `new ClosureType($parameters, $returnType)`. */
  datatype ClosureType = ClosureType(parameters: seq<ClosureQueryParameter>, returnType: Ty)

  /** An argument supplies the relation when it is not a `...` placeholder and is either
      unnamed or named `relation`. */
  predicate SuppliesRelation(a: CallArg) {
    a.Arg? && (a.name.None? || a.name.value == "relation")
  }

  /** The static type of the first argument that supplies the relation, if any. */
  function FirstRelationArgument(args: seq<CallArg>): Option<Ty> {
    if args == [] then None
    else if SuppliesRelation(args[0]) then Some(args[0].valueType)
    else FirstRelationArgument(args[1..])
  }

  /** The selected argument is the first that supplies the relation; there is none exactly
      when no argument does. */
  lemma {:induction false} FirstRelationArgumentIsFirst(args: seq<CallArg>)
    ensures FirstRelationArgument(args).None? <==> forall i :: 0 <= i < |args| ==> !SuppliesRelation(args[i])
    ensures FirstRelationArgument(args).Some? ==>
      exists i :: 0 <= i < |args| && SuppliesRelation(args[i]) &&
        args[i].valueType == FirstRelationArgument(args).value &&
        forall j :: 0 <= j < i ==> !SuppliesRelation(args[j])
  {
    if args != [] && !SuppliesRelation(args[0]) {
      FirstRelationArgumentIsFirst(args[1..]);
      assert forall i :: 0 < i < |args| ==> args[i] == args[1..][i - 1];
      if FirstRelationArgument(args).Some? {
        var i :| 0 <= i < |args[1..]| && SuppliesRelation(args[1..][i]) &&
          args[1..][i].valueType == FirstRelationArgument(args).value &&
          forall j :: 0 <= j < i ==> !SuppliesRelation(args[1..][j]);
        assert args[i + 1] == args[1..][i];
        assert forall j :: 0 <= j < i + 1 ==> !SuppliesRelation(args[j]) by {
          forall j | 0 <= j < i + 1 ensures !SuppliesRelation(args[j]) {
            if j > 0 { assert args[j] == args[1..][j - 1]; }
          }
        }
      }
    }
  }

  /** The relation types of walking, in turn, the path of each value in `values`. */
  function WalksOf(env: Reflection, models: seq<string>, values: seq<string>): (r: seq<Ty>)
    ensures forall t :: t in r ==> IsRelation(t)
  {
    if values == [] then []
    else WalksOf(env, models, values[..|values| - 1]) + Walk(env, models, Explode(values[|values| - 1]))
  }

  /** `array_values(array_filter($types, fn ($r) => isSuperTypeOf($r)->yes()))`. */
  function KeepRelations(ts: seq<Ty>): (r: seq<Ty>)
    ensures forall t :: t in r <==> t in ts && IsRelation(t)
  {
    if ts == [] then []
    else (if IsRelation(ts[0]) then [ts[0]] else []) + KeepRelations(ts[1..])
  }

  /** The relation list `getRelationsFromMethodCall` returns. */
  function RelationsOfCall(env: Reflection, call: MethodCall): (r: seq<Ty>)
    ensures forall t :: t in r ==> IsRelation(t)
  {
    match FirstRelationArgument(call.args)
    case None => []
    case Some(relationType) =>
      KeepRelations([relationType] + WalksOf(env, call.receiverModels, ConstantStringValues(relationType)))
  }

  lemma {:induction false} KeepRelationsAppend(a: seq<Ty>, b: seq<Ty>)
    ensures KeepRelations(a + b) == KeepRelations(a) + KeepRelations(b)
  {
    if a != [] {
      KeepRelationsAppend(a[1..], b);
      assert (a + b)[1..] == a[1..] + b;
    } else {
      assert a + b == b;
    }
  }

  lemma {:induction false} KeepRelationsOfRelations(ts: seq<Ty>)
    requires forall t :: t in ts ==> IsRelation(t)
    ensures KeepRelations(ts) == ts
  {
    if ts != [] {
      KeepRelationsOfRelations(ts[1..]);
    }
  }

  /**
   * The relation list is the relation argument's own type, kept only when it is a relation,
   * followed by the walk of each of its literal string values in turn; without a relation
   * argument it is empty, and a non-literal, non-relation argument contributes nothing.
   */
  lemma RelationsOfCallDecomposes(env: Reflection, call: MethodCall)
    ensures FirstRelationArgument(call.args).None? ==> RelationsOfCall(env, call) == []
    ensures FirstRelationArgument(call.args).Some? ==>
      var t := FirstRelationArgument(call.args).value;
      RelationsOfCall(env, call)
        == (if IsRelation(t) then [t] else []) + WalksOf(env, call.receiverModels, ConstantStringValues(t))
    ensures FirstRelationArgument(call.args).Some? && FirstRelationArgument(call.args).value.Other? ==>
      RelationsOfCall(env, call) == []
  {
    match FirstRelationArgument(call.args)
    case None =>
    case Some(t) =>
      var walks := WalksOf(env, call.receiverModels, ConstantStringValues(t));
      KeepRelationsAppend([t], walks);
      KeepRelationsOfRelations(walks);
  }

  /** A model is collected exactly when it is a related model of one of the relations. */
  lemma {:induction false} ModelsOfCollects(relations: seq<Ty>)
    ensures forall m :: m in ModelsOf(relations) <==>
      exists i :: 0 <= i < |relations| && m in RelatedModelNames(relations[i])
  {
    if relations != [] {
      var init := relations[..|relations| - 1];
      ModelsOfCollects(init);
      assert forall i :: 0 <= i < |init| ==> init[i] == relations[i];
    }
  }

  /** The callback type `getTypeFromMethodCall` returns: `None` for PHP `null`, a failure
      for an exception the reflection provider throws. */
  function CallbackType(env: Reflection, methodReflection: MethodReflection, call: MethodCall): Result<Option<ClosureType>, HostError> {
    var relations := RelationsOfCall(env, call);
    var models := ModelsOf(relations);
    if |models| == 0 then Success(None)
    else match BuilderTypeForModels(env, models)
      case Failure(e) => Failure(e)
      case Success(builders) =>
        var paramType := if methodReflection.name == "withWhereHas" then builders + (set r | r in relations) else builders;
        Success(Some(ClosureType([ClosureQueryParameter("query", paramType)], Mixed)))
  }

  /** No relation argument, or one that walks to no model, means no narrowed type. */
  lemma NoModelsNoRefinement(env: Reflection, methodReflection: MethodReflection, call: MethodCall)
    ensures CallbackType(env, methodReflection, call) == Success(None) <==> ModelsOf(RelationsOfCall(env, call)) == []
    ensures FirstRelationArgument(call.args).None? ==> CallbackType(env, methodReflection, call) == Success(None)
  {
    RelationsOfCallDecomposes(env, call);
  }

  /**
   * A narrowed callback takes exactly one parameter, `query`, required, by value, not variadic
   * and without default, and returns mixed. Its builder part is the union of builder types for
   * the related models; for `withWhereHas` its other members are exactly the relations
   * collected, for `whereHas` there are none.
   */
  lemma CallbackShape(env: Reflection, methodReflection: MethodReflection, call: MethodCall, c: ClosureType)
    requires CallbackType(env, methodReflection, call) == Success(Some(c))
    ensures |c.parameters| == 1 && c.returnType == Mixed
    ensures var p := c.parameters[0];
      p.GetName() == "query" && !p.IsOptional() && !p.IsVariadic() &&
      p.GetPassedByReference() == No && p.GetDefaultValue() == None
    ensures var relations := RelationsOfCall(env, call);
      var models := ModelsOf(relations);
      var p := c.parameters[0];
      models != [] &&
      BuilderTypeForModels(env, models) == Success(set t | t in p.GetType() && t.Builder?) &&
      (set t | t in p.GetType() && !t.Builder?)
        == if methodReflection.name == "withWhereHas" then (set r | r in relations) else {}
  {
    var relations := RelationsOfCall(env, call);
    var models := ModelsOf(relations);
    var builders := BuilderTypeForModels(env, models).value;
    BuilderUnionHoldsBuilders(env, models);
    var p := c.parameters[0];
    assert (set t | t in p.GetType() && t.Builder?) == builders;
  }

  /** `getModelsFromRelations`: the related-model class names of every relation, appended in order. */
  method GetModelsFromRelations(relations: seq<Ty>) returns (models: seq<string>)
    ensures models == ModelsOf(relations)
  {
    models := [];
    for i := 0 to |relations|
      invariant models == ModelsOf(relations[..i])
    {
      assert relations[..i + 1][..i] == relations[..i];
      var classNames := RelatedModelNames(relations[i]);
      for k := 0 to |classNames|
        invariant models == ModelsOf(relations[..i]) + classNames[..k]
      {
        assert classNames[..k + 1] == classNames[..k] + [classNames[k]];
        models := models + [classNames[k]];
      }
      assert classNames[..|classNames|] == classNames;
    }
    assert relations[..|relations|] == relations;
  }

  /** The first loop of `getRelationsFromMethodCall`: skip placeholders, stop at the first
      unnamed argument or the one named `relation`. */
  method SelectRelationArgument(args: seq<CallArg>) returns (relationType: Option<Ty>)
    ensures relationType == FirstRelationArgument(args)
  {
    relationType := None;
    var i := 0;
    while i < |args|
      invariant 0 <= i <= |args|
      invariant FirstRelationArgument(args) == FirstRelationArgument(args[i..])
    {
      var arg := args[i];
      if arg.Arg? && (arg.name.None? || arg.name.value == "relation") {
        relationType := Some(arg.valueType);
        break;
      }
      assert args[i..][1..] == args[i + 1..];
      i := i + 1;
    }
  }

  /** `getRelationsFromMethodCall`: pick the relation argument, walk each of its literal
      string values from the receiver's models, and keep only the relation types. */
  method GetRelationsFromMethodCall(env: Reflection, call: MethodCall) returns (relations: seq<Ty>)
    ensures relations == RelationsOfCall(env, call)
  {
    var relationType := SelectRelationArgument(call.args);
    if relationType.None? {
      return [];
    }

    var calledOnModels := call.receiverModels;
    var values := ConstantStringValues(relationType.value);
    var relationTypes := [relationType.value];
    for j := 0 to |values|
      invariant relationTypes == [relationType.value] + WalksOf(env, calledOnModels, values[..j])
    {
      assert values[..j + 1][..j] == values[..j];
      var walked := GetRelationTypeFromString(env, calledOnModels, Explode(values[j]));
      relationTypes := relationTypes + walked;
    }
    assert values[..|values|] == values;
    relations := KeepRelations(relationTypes);
  }

  /** `getTypeFromMethodCall`: the closure type for the callback of a supported call, or
      `None` when the relation path leads to no model. */
  method GetTypeFromMethodCall(env: Reflection, methodReflection: MethodReflection, call: MethodCall)
    returns (r: Result<Option<ClosureType>, HostError>)
    ensures r == CallbackType(env, methodReflection, call)
  {
    var relations := GetRelationsFromMethodCall(env, call);
    var models := GetModelsFromRelations(relations);
    if |models| == 0 {
      return Success(None);
    }
    var builderType := GetBuilderTypeForModels(env, models);
    if builderType.Failure? {
      return Failure(builderType.error);
    }
    var paramType := builderType.value;
    if methodReflection.name == "withWhereHas" {
      paramType := paramType + (set t | t in relations);
    }
    r := Success(Some(ClosureType([ClosureQueryParameter("query", paramType)], Mixed)));
  }
}
