/**
 * The host analyser's static types and reflection data, reduced to the
 * answers the relation-parameter extension asks of them. Every three-valued
 * host answer (`hasMethod()->yes()`, `isSuperTypeOf()->yes()`) is a plain
 * boolean here: only a definite "yes" is true.
 */
module HostTypes {
  import opened Wrappers

  /** Fully qualified name of the base query builder, `Builder::class`. */
  const BuilderClass: string := "Bug12585\\Builder"

  /** A static type, as far as the extension looks into it. A union of types is a `set<Ty>`. */
  datatype Ty =
      /** A type that is definitely a subtype of `Relation`. `related` holds the object class
          names of its `TRelatedModel` argument, `declaring` those of `TDeclaringModel`. */
    | Relation(cls: string, related: seq<string>, declaring: seq<string>)
      /** A builder object type: with `Some(models)` the generic instantiation over the union of
          those model classes, with `None` the plain class. */
    | Builder(cls: string, models: Option<set<string>>)
      /** One literal string, or a union of literal strings. */
    | ConstantStrings(values: seq<string>)
    | Mixed
      /** Any other type (a non-literal string, a closure, a type that is only maybe a relation). */
    | Other(description: string)

  /** `(new ObjectType(Relation::class))->isSuperTypeOf(t)->yes()`. */
  predicate IsRelation(t: Ty) {
    t.Relation?
  }

  /** The values of `t->getConstantStrings()`: none unless `t` is made of literal strings. */
  function ConstantStringValues(t: Ty): seq<string> {
    if t.ConstantStrings? then t.values else []
  }

  /** `t->getTemplateType(Relation::class, 'TRelatedModel')->getObjectClassNames()`. */
  function RelatedModelNames(t: Ty): seq<string> {
    if t.Relation? then t.related else []
  }

  /** What the extension reads off the declared return type of a model's native `query()` method. */
  datatype QueryReturn = QueryReturn(
    referencedClasses: seq<string>,  // getReferencedClasses()
    objectClassNames: seq<string>,   // getObjectClassNames()
    description: string              // describe(VerbosityLevel::value())
  )

  /** PHP's ASCII lower-casing of one character (`strtolower`). */
  function LowerChar(c: char): char {
    if 'A' <= c <= 'Z' then (c as int + 32) as char else c
  }

  /** PHP's ASCII lower-casing of a name: method names are looked up case-insensitively. */
  function Lower(s: string): string {
    seq(|s|, i requires 0 <= i < |s| => LowerChar(s[i]))
  }

  predicate NoCapitals(s: string) {
    forall i :: 0 <= i < |s| ==> !('A' <= s[i] <= 'Z')
  }

  /** Reflection of one class: declared return types of the methods it definitely has, keyed by
      their lower-cased names, its own `query()` method if it declares or inherits one natively,
      and whether it is generic. */
  datatype ClassInfo = ClassInfo(methods: map<string, Ty>, nativeQuery: Option<QueryReturn>, isGeneric: bool)

  /** The reflection provider: every class it knows, by fully qualified name. */
  datatype Reflection = Reflection(classes: map<string, ClassInfo>)

  /** `(new ObjectType(cls))->hasMethod(name)->yes()`: the name is matched regardless of case. */
  predicate HasMethod(env: Reflection, cls: string, name: string) {
    cls in env.classes && Lower(name) in env.classes[cls].methods
  }

  /** Return type of the first variant of method `name` on `cls`. */
  function MethodReturnType(env: Reflection, cls: string, name: string): Ty
    requires HasMethod(env, cls, name)
  {
    env.classes[cls].methods[Lower(name)]
  }

  /** Lower-casing leaves a name without capitals alone, is idempotent, and leaves no capitals. */
  lemma LowerFolds(s: string)
    ensures NoCapitals(s) ==> Lower(s) == s
    ensures Lower(Lower(s)) == Lower(s)
    ensures NoCapitals(Lower(s))
  {
  }

  /** Two spellings of a method name that differ only in case find the same method. */
  lemma MethodLookupIgnoresCase(env: Reflection, cls: string, a: string, b: string)
    requires Lower(a) == Lower(b)
    ensures HasMethod(env, cls, a) <==> HasMethod(env, cls, b)
    ensures HasMethod(env, cls, a) ==> MethodReturnType(env, cls, a) == MethodReturnType(env, cls, b)
  {
  }

  /** The exceptions the reflection provider throws: `getClass()` of an unknown class,
      `getNativeMethod()` of a method the class does not have. */
  datatype HostError = ClassNotFound(name: string) | MissingNativeMethod(cls: string, methodName: string)

  /** One argument of the analysed call: a `...` placeholder, or an argument with an optional
      name and the static type of its value in the call's scope. */
  datatype CallArg = VariadicPlaceholder | Arg(name: Option<string>, valueType: Ty)

  /** The analysed call `$builder->whereHas(...)`: the object class names of the receiver's
      `TModel`, and the arguments in order. */
  datatype MethodCall = MethodCall(receiverModels: seq<string>, args: seq<CallArg>)

  /** The called method: its name, and every class name `c` for which
      `getDeclaringClass()->is(c)` holds. */
  datatype MethodReflection = MethodReflection(name: string, declaringClassIs: set<string>)
}
