/**
 * Splitting a relation path on `.` and walking its segments through the
 * model/relation graph (`getRelationTypeFromString`, extension.php:128-158).
 */
module RelationPath {
  import opened HostTypes

  /** PHP truthiness of a string: only `""` and `"0"` are false. */
  predicate Falsy(s: string) {
    s == "" || s == "0"
  }

  /** `explode('.', s)`: the pieces between dots; always at least one, none holding a dot. */
  function Explode(s: string): (parts: seq<string>)
    ensures |parts| >= 1
    ensures forall i :: 0 <= i < |parts| ==> '.' !in parts[i]
  {
    if s == [] then [""]
    else
      var rest := Explode(s[1..]);
      if s[0] == '.' then [""] + rest
      else [[s[0]] + rest[0]] + rest[1..]
  }

  /** `implode('.', parts)`, the inverse of `Explode`. */
  function Implode(parts: seq<string>): string {
    if parts == [] then ""
    else if |parts| == 1 then parts[0]
    else parts[0] + "." + Implode(parts[1..])
  }

  /** Joining the pieces with dots gives back the path. */
  lemma {:induction false} ImplodeExplode(s: string)
    ensures Implode(Explode(s)) == s
  {
    if s != [] {
      var rest := Explode(s[1..]);
      ImplodeExplode(s[1..]);
      if s[0] == '.' {
        assert Explode(s) == [""] + rest;
        assert Implode([""] + rest) == "" + "." + Implode(rest);
      } else if |rest| == 1 {
        assert Explode(s) == [[s[0]] + rest[0]];
        assert s == [s[0]] + s[1..];
      } else {
        var parts := [[s[0]] + rest[0]] + rest[1..];
        assert Explode(s) == parts;
        assert parts[1..] == rest[1..];
        assert Implode(parts) == [s[0]] + rest[0] + "." + Implode(rest[1..]);
        assert Implode(rest) == rest[0] + "." + Implode(rest[1..]);
        assert s == [s[0]] + s[1..];
      }
    }
  }

  /** A dot-free piece followed by a dot and more text splits off as the first piece. */
  lemma {:induction false} ExplodeAfterPiece(a: string, b: string)
    requires '.' !in a
    ensures Explode(a + "." + b) == [a] + Explode(b)
    ensures Explode(a) == [a]
  {
    if a != [] {
      ExplodeAfterPiece(a[1..], b);
      assert (a + "." + b)[1..] == a[1..] + "." + b;
      assert a == [a[0]] + a[1..];
    } else {
      assert a + "." + b == ['.'] + b;
      assert (['.'] + b)[1..] == b;
    }
  }

  /** Splitting the dot-joined pieces gives back the pieces, when none of them holds a dot. */
  lemma {:induction false} ExplodeImplode(parts: seq<string>)
    requires |parts| >= 1
    requires forall i :: 0 <= i < |parts| ==> '.' !in parts[i]
    ensures Explode(Implode(parts)) == parts
  {
    if |parts| == 1 {
      ExplodeAfterPiece(parts[0], "");
    } else {
      ExplodeImplode(parts[1..]);
      ExplodeAfterPiece(parts[0], Implode(parts[1..]));
      assert parts == [parts[0]] + parts[1..];
    }
  }

  /** The model classes named by `TRelatedModel` of each relation, in order, concatenated
      (`getModelsFromRelations`, extension.php:69-81). */
  function ModelsOf(relations: seq<Ty>): seq<string> {
    if relations == [] then []
    else ModelsOf(relations[..|relations| - 1]) + RelatedModelNames(relations[|relations| - 1])
  }

  /**
   * One pass of the walk over the current models for segment `name`: the relation types
   * recorded and the related models collected. A model without the method, or whose method
   * is not definitely a relation, is skipped.
   */
  function StepOver(env: Reflection, models: seq<string>, name: string): (r: (seq<Ty>, seq<string>))
    ensures forall t :: t in r.0 ==> IsRelation(t)
    ensures r.1 == ModelsOf(r.0)
    ensures |r.0| <= |models|
  {
    if models == [] then ([], [])
    else
      var prev := StepOver(env, models[..|models| - 1], name);
      var m := models[|models| - 1];
      if HasMethod(env, m, name) && IsRelation(MethodReturnType(env, m, name)) then
        var t := MethodReturnType(env, m, name);
        assert (prev.0 + [t])[..|prev.0|] == prev.0;
        (prev.0 + [t], prev.1 + RelatedModelNames(t))
      else prev
  }

  /** The rest of the walk from `models` over `parts`, where `relations` is what the last
      processed segment recorded. */
  function WalkFrom(env: Reflection, models: seq<string>, parts: seq<string>, relations: seq<Ty>): (r: seq<Ty>)
    ensures (forall t :: t in relations ==> IsRelation(t)) ==> forall t :: t in r ==> IsRelation(t)
    decreases |parts|
  {
    if parts == [] || Falsy(parts[0]) then relations
    else
      var step := StepOver(env, models, parts[0]);
      WalkFrom(env, step.1, parts[1..], step.0)
  }

  /** The relation types `getRelationTypeFromString` returns for the path `parts` starting at `models`. */
  function Walk(env: Reflection, models: seq<string>, parts: seq<string>): (r: seq<Ty>)
    ensures forall t :: t in r ==> IsRelation(t)
  {
    WalkFrom(env, models, parts, [])
  }

  /** The models reached after stepping over every segment of `parts` in turn. */
  function Reached(env: Reflection, models: seq<string>, parts: seq<string>): seq<string>
    decreases |parts|
  {
    if parts == [] then models
    else Reached(env, StepOver(env, models, parts[0]).1, parts[1..])
  }

  /** A relation is recorded for a segment exactly when some current model definitely has
      that method and the method's declared return type is definitely a relation. */
  lemma {:induction false} StepOverRecords(env: Reflection, models: seq<string>, name: string)
    ensures forall t :: t in StepOver(env, models, name).0 <==>
      exists m :: m in models && HasMethod(env, m, name) && MethodReturnType(env, m, name) == t && IsRelation(t)
  {
    if models != [] {
      var init := models[..|models| - 1];
      StepOverRecords(env, init, name);
      assert models == init + [models[|models| - 1]];
    }
  }

  /** With no current models, a segment records nothing and reaches nothing. */
  lemma {:induction false} WalkFromNoModels(env: Reflection, parts: seq<string>)
    ensures WalkFrom(env, [], parts, []) == []
    decreases |parts|
  {
    if parts != [] && !Falsy(parts[0]) {
      WalkFromNoModels(env, parts[1..]);
    }
  }

  lemma {:induction false} WalkFromTruncates(env: Reflection, models: seq<string>, parts: seq<string>, acc: seq<Ty>, k: nat)
    requires k < |parts| && Falsy(parts[k])
    ensures WalkFrom(env, models, parts, acc) == WalkFrom(env, models, parts[..k], acc)
    decreases k
  {
    if k > 0 && !Falsy(parts[0]) {
      var step := StepOver(env, models, parts[0]);
      WalkFromTruncates(env, step.1, parts[1..], step.0, k - 1);
      assert parts[..k][1..] == parts[1..][..k - 1];
    }
  }

  /** The walk stops at the first falsy segment: nothing from that segment on is looked at. */
  lemma WalkStopsAtFalsySegment(env: Reflection, models: seq<string>, parts: seq<string>, k: nat)
    requires k < |parts| && Falsy(parts[k])
    ensures Walk(env, models, parts) == Walk(env, models, parts[..k])
    ensures k == 0 ==> Walk(env, models, parts) == []
  {
    WalkFromTruncates(env, models, parts, [], k);
  }

  lemma {:induction false} WalkFromLastStep(env: Reflection, models: seq<string>, parts: seq<string>, acc: seq<Ty>)
    requires |parts| > 0
    requires forall i :: 0 <= i < |parts| ==> !Falsy(parts[i])
    ensures WalkFrom(env, models, parts, acc)
         == StepOver(env, Reached(env, models, parts[..|parts| - 1]), parts[|parts| - 1]).0
    decreases |parts|
  {
    var step := StepOver(env, models, parts[0]);
    if |parts| > 1 {
      WalkFromLastStep(env, step.1, parts[1..], step.0);
      assert parts[..|parts| - 1][1..] == parts[1..][..|parts| - 2];
    }
  }

  /** When no segment is falsy, only the relations recorded for the last segment are returned:
      those found on the models reached through all the earlier segments. */
  lemma WalkReturnsLastStep(env: Reflection, models: seq<string>, parts: seq<string>)
    requires |parts| > 0
    requires forall i :: 0 <= i < |parts| ==> !Falsy(parts[i])
    ensures Walk(env, models, parts)
         == StepOver(env, Reached(env, models, parts[..|parts| - 1]), parts[|parts| - 1]).0
  {
    WalkFromLastStep(env, models, parts, []);
  }

  lemma {:induction false} WalkFromDeadEnd(env: Reflection, models: seq<string>, parts: seq<string>, acc: seq<Ty>, k: nat)
    requires k < |parts|
    requires forall i :: 0 <= i <= k ==> !Falsy(parts[i])
    requires Reached(env, models, parts[..k]) == []
    ensures WalkFrom(env, models, parts, acc) == []
    decreases k
  {
    var step := StepOver(env, models, parts[0]);
    if k == 0 {
      assert models == [];
      WalkFromNoModels(env, parts[1..]);
    } else {
      assert parts[..k][1..] == parts[1..][..k - 1];
      WalkFromDeadEnd(env, step.1, parts[1..], step.0, k - 1);
    }
  }

  /** Once the reached model list is empty, every later segment yields no relations. */
  lemma WalkAfterModelsRunOut(env: Reflection, models: seq<string>, parts: seq<string>, k: nat)
    requires k < |parts|
    requires forall i :: 0 <= i <= k ==> !Falsy(parts[i])
    requires Reached(env, models, parts[..k]) == []
    ensures Walk(env, models, parts) == []
  {
    WalkFromDeadEnd(env, models, parts, [], k);
  }

  /** `getRelationTypeFromString`: a while loop that shifts segments off the path and, per
      segment, resets and refills the relation and related-model lists. */
  method GetRelationTypeFromString(env: Reflection, calledOnModels: seq<string>, relationParts: seq<string>)
    returns (relations: seq<Ty>)
    ensures relations == Walk(env, calledOnModels, relationParts)
  {
    relations := [];
    var models := calledOnModels;
    var parts := relationParts;
    while parts != [] && !Falsy(parts[0])
      invariant WalkFrom(env, models, parts, relations) == Walk(env, calledOnModels, relationParts)
      decreases |parts|
    {
      var relationName := parts[0];
      parts := parts[1..];
      relations := [];
      var relatedModels: seq<string> := [];
      var i := 0;
      while i < |models|
        invariant 0 <= i <= |models|
        invariant (relations, relatedModels) == StepOver(env, models[..i], relationName)
      {
        var model := models[i];
        assert models[..i + 1][..i] == models[..i];
        if HasMethod(env, model, relationName) {
          var relationType := MethodReturnType(env, model, relationName);
          if IsRelation(relationType) {
            relations := relations + [relationType];
            relatedModels := relatedModels + RelatedModelNames(relationType);
          }
        }
        i := i + 1;
      }
      assert models[..i] == models;
      models := relatedModels;
    }
  }
}
