/** src/preProcess.ts: `preprocessSpec` deletes `description` keys in place at
    fixed levels of the parsed document: path items, the object-valued entries
    under them and their parameters, component schemas and their direct
    properties.  `apiGen.resolve` is taken as the identity (see README), and the
    JavaScript throws on `null` and on a non-array `parameters` are modelled. */
module Preprocess {
  import opened Wrappers
  import opened Json
  import opened OpenApi

  /** The value has a `description` that `if (obj.description)` accepts. */
  predicate HasTruthyDescription(j: Json) {
    j.JObj? && Get(j.fields, "description").Some? && Truthy(Get(j.fields, "description").value)
  }

  /** `deleteDescription`: a truthy `description` is deleted; a falsy one, or
      any value that is not an object, is left as it is; `null.description` throws. */
  function DeleteDescription(j: Json): (r: Result<Json, Error>)
    ensures r.Failure? <==> j.JNull?
    ensures r.Success? ==> !HasTruthyDescription(r.value)
    ensures r.Success? && !HasTruthyDescription(j) ==> r.value == j
    ensures r.Success? && HasTruthyDescription(j) ==>
      && r.value.JObj? && !HasKey(r.value.fields, "description")
      && forall k :: k != "description" ==> Get(r.value.fields, k) == Get(j.fields, k)
  {
    if j.JNull? then Failure(TypeError("cannot read properties of null (reading 'description')"))
    else if HasTruthyDescription(j) then Success(JObj(RemoveKey(j.fields, "description")))
    else Success(j)
  }

  /** `f` applied to every element, all or nothing: the first failure wins. */
  function MapAll(f: Json -> Result<Json, Error>, xs: seq<Json>): (r: Result<seq<Json>, Error>)
    ensures r.Success? <==> forall i :: 0 <= i < |xs| ==> f(xs[i]).Success?
    ensures r.Success? ==> |r.value| == |xs| && forall i :: 0 <= i < |xs| ==> f(xs[i]) == Success(r.value[i])
    ensures r.Failure? ==> exists i :: 0 <= i < |xs| && f(xs[i]) == Failure(r.error)
  {
    if |xs| == 0 then Success([])
    else
      var y := f(xs[0]);
      var rest := MapAll(f, xs[1..]);
      assert forall i :: 1 <= i < |xs| ==> xs[i] == xs[1..][i - 1];
      if y.Failure? then Failure(y.error)
      else if rest.Failure? then
        assert exists i :: 0 <= i < |xs[1..]| && f(xs[1..][i]) == Failure(rest.error);
        Failure(rest.error)
      else
        var r := [y.value] + rest.value;
        assert forall i :: 1 <= i < |xs| ==> r[i] == rest.value[i - 1];
        Success(r)
  }

  /** The loop each level runs: `f` on every element, stopping at the first throw. */
  function MapValues(f: Json -> Result<Json, Error>, j: Json): (r: Result<Json, Error>)
    ensures r.Success? <==> MapAll(f, Values(j)).Success?
    ensures r.Success? ==> Values(r.value) == MapAll(f, Values(j)).value
  {
    var vs := MapAll(f, Values(j));
    if vs.Failure? then Failure(vs.error) else Success(WithValues(j, vs.value))
  }

  /** `operation.parameters?.forEach(...)`: skipped for `null`, each element's
      description deleted for an array, and a throw for anything else. */
  function CleanParams(ps: Json): (r: Result<Json, Error>)
    ensures !ps.JNull? && !ps.JArr? ==> r.Failure?
    ensures ps.JNull? ==> r == Success(ps)
    ensures r.Success? && ps.JArr? ==>
      && r.value.JArr? && |r.value.items| == |ps.items|
      && forall i :: 0 <= i < |ps.items| ==> DeleteDescription(ps.items[i]) == Success(r.value.items[i])
  {
    if ps.JNull? then Success(ps)
    else if ps.JArr? then MapValues(DeleteDescription, ps)
    else Failure(TypeError("operation.parameters.forEach is not a function"))
  }

  /** One entry of a path item: skipped unless `typeof` says "object"; for an
      object the description goes, then the descriptions of its parameters. */
  function CleanOperation(op: Json): (r: Result<Json, Error>)
    ensures op.JStr? || op.JNum? || op.JBool? || op.JArr? ==> r == Success(op)
    ensures op.JNull? ==> r.Failure?
    ensures r.Success? ==> !HasTruthyDescription(r.value)
  {
    match op
    case JObj(_) =>
      var o := DeleteDescription(op).value;
      var ps := Get(o.fields, "parameters");
      if ps.None? then Success(o)
      else
        var ps' := CleanParams(ps.value);
        if ps'.Failure? then Failure(ps'.error) else Success(JObj(SetKey(o.fields, "parameters", ps'.value)))
    case JNull => DeleteDescription(op)
    case _ => Success(op)
  }

  /** One path item: skipped when falsy; otherwise its description goes, then
      every entry under it is cleaned. */
  function CleanPathItem(item: Json): (r: Result<Json, Error>)
    ensures !Truthy(item) ==> r == Success(item)
    ensures r.Success? ==> !HasTruthyDescription(r.value)
  {
    if !Truthy(item) then Success(item)
    else
      var cleared := DeleteDescription(item).value;
      var r := MapValues(CleanOperation, cleared);
      if r.Success? && cleared.JObj? then
        DescriptionStaysFalsy(cleared, MapAll(CleanOperation, Values(cleared)).value);
        r
      else r
  }

  /** Cleaning the entries of an object keeps a falsy description falsy: it is
      not an object, so cleaning leaves it as it is. */
  lemma DescriptionStaysFalsy(j: Json, vs: seq<Json>)
    requires j.JObj? && !HasTruthyDescription(j)
    requires |vs| == |Values(j)| && forall i :: 0 <= i < |vs| ==> CleanOperation(Values(j)[i]) == Success(vs[i])
    ensures !HasTruthyDescription(WithValues(j, vs))
  {
    var fs, gs := j.fields, WithValues(j, vs).fields;
    GetSameKeys(fs, gs, "description");
    if Get(fs, "description").Some? {
      var i :| 0 <= i < |fs| && Get(fs, "description") == Some(fs[i].value) && Get(gs, "description") == Some(gs[i].value);
      assert Values(j)[i] == fs[i].value;
    }
  }

  /** The schema's description goes, then that of each direct property. */
  function CleanSchema(s: Json): (r: Result<Json, Error>)
    ensures s.JNull? ==> r.Failure?
    ensures r.Success? ==> !HasTruthyDescription(r.value)
  {
    var d := DeleteDescription(s);
    if d.Failure? then d
    else
      var cleared := d.value;
      if !cleared.JObj? then d
      else
        var props := Get(cleared.fields, "properties");
        if props.None? || props.value.JNull? then d
        else
          var props' := MapValues(DeleteDescription, props.value);
          if props'.Failure? then Failure(props'.error)
          else Success(JObj(SetKey(cleared.fields, "properties", props'.value)))
  }

  /** `Object.entries(spec.paths)` throws for a missing or null `paths`. */
  function CleanPaths(root: Json): (r: Result<Json, Error>)
    ensures r.Failure? <==>
      || !root.JObj? || Get(root.fields, "paths").None? || Get(root.fields, "paths").value.JNull?
      || MapValues(CleanPathItem, Get(root.fields, "paths").value).Failure?
    ensures r.Success? ==> r.value.JObj?
  {
    if !root.JObj? then Failure(TypeError("cannot convert undefined or null to object"))
    else
      var paths := Get(root.fields, "paths");
      if paths.None? || paths.value.JNull? then Failure(TypeError("cannot convert undefined or null to object"))
      else
        var paths' := MapValues(CleanPathItem, paths.value);
        if paths'.Failure? then Failure(paths'.error) else Success(JObj(SetKey(root.fields, "paths", paths'.value)))
  }

  /** `spec.components?.schemas ?? {}`: nothing to do when either is missing. */
  function SchemasOf(root: Json): Option<Json>
    requires root.JObj?
  {
    var components := Get(root.fields, "components");
    if components.None? || !components.value.JObj? then None
    else
      var schemas := Get(components.value.fields, "schemas");
      if schemas.None? || schemas.value.JNull? then None else schemas
  }

  /** The document with `components.schemas` set to `schemas`; reading the
      schemas back gives what was set. */
  function WithSchemas(root: Json, schemas: Json): (r: Json)
    requires root.JObj? && SchemasOf(root).Some?
    ensures r.JObj?
    ensures !schemas.JNull? ==> SchemasOf(r) == Some(schemas)
  {
    var components := Get(root.fields, "components").value;
    var components' := JObj(SetKey(components.fields, "schemas", schemas));
    SetKeyHit(components.fields, "schemas", schemas);
    SetKeyHit(root.fields, "components", components');
    JObj(SetKey(root.fields, "components", components'))
  }

  /** Setting the same schemas again changes nothing. */
  lemma WithSchemasAgain(root: Json, schemas: Json)
    requires root.JObj? && SchemasOf(root).Some? && !schemas.JNull?
    ensures WithSchemas(WithSchemas(root, schemas), schemas) == WithSchemas(root, schemas)
  {
    var components := Get(root.fields, "components").value;
    var components' := JObj(SetKey(components.fields, "schemas", schemas));
    var y := WithSchemas(root, schemas);
    SetKeyHit(root.fields, "components", components');
    SetKeyHit(components.fields, "schemas", schemas);
    assert SetKey(components'.fields, "schemas", schemas) == components'.fields;
    assert SetKey(y.fields, "components", components') == y.fields;
  }

  function CleanComponents(root: Json): (r: Result<Json, Error>)
    requires root.JObj?
    ensures SchemasOf(root).None? ==> r == Success(root)
    ensures r.Success? ==> r.value.JObj?
  {
    var schemas := SchemasOf(root);
    if schemas.None? then Success(root)
    else
      var schemas' := MapValues(CleanSchema, schemas.value);
      if schemas'.Failure? then Failure(schemas'.error)
      else
        Success(WithSchemas(root, schemas'.value))
  }

  /** The document `preprocessSpec` leaves behind, or the error it throws. */
  function PreprocessSpec(root: Json): Result<Json, Error> {
    var afterPaths := CleanPaths(root);
    if afterPaths.Failure? then afterPaths else CleanComponents(afterPaths.value)
  }

  // ---------------------------------------------------------------------------
  // Only descriptions go: every level agrees with its input once stripped.

  lemma DeleteDescriptionOnlyDescriptions(j: Json)
    requires DeleteDescription(j).Success?
    ensures StripAll(DeleteDescription(j).value) == StripAll(j)
  {
    if HasTruthyDescription(j) {
      StripRemoveDescription(j.fields);
      StripObj(RemoveKey(j.fields, "description"));
      StripObj(j.fields);
    }
  }

  /** `f` deletes nothing but descriptions, wherever it succeeds. */
  ghost predicate KeepsStripped(f: Json -> Result<Json, Error>) {
    forall x :: f(x).Success? ==> StripAll(f(x).value) == StripAll(x)
  }

  /** A second application of `f` to its own result changes nothing. */
  ghost predicate Idempotent(f: Json -> Result<Json, Error>) {
    forall x :: f(x).Success? ==> f(f(x).value) == f(x)
  }

  /** A level whose elements each keep their stripped image keeps its own. */
  lemma {:induction false} MapValuesOnlyDescriptions(f: Json -> Result<Json, Error>, j: Json)
    requires MapValues(f, j).Success?
    requires KeepsStripped(f)
    ensures StripAll(MapValues(f, j).value) == StripAll(j)
  {
    var vs := MapAll(f, Values(j)).value;
    assert forall i :: 0 <= i < |vs| ==> f(Values(j)[i]) == Success(vs[i]);
    StripWithValues(j, vs);
  }

  lemma DeleteDescriptionEverywhere()
    ensures KeepsStripped(DeleteDescription)
  {
    forall x | DeleteDescription(x).Success? ensures StripAll(DeleteDescription(x).value) == StripAll(x) {
      DeleteDescriptionOnlyDescriptions(x);
    }
  }

  lemma {:induction false} CleanParamsOnlyDescriptions(ps: Json)
    requires CleanParams(ps).Success?
    ensures StripAll(CleanParams(ps).value) == StripAll(ps)
  {
    if ps.JArr? {
      DeleteDescriptionEverywhere();
      MapValuesOnlyDescriptions(DeleteDescription, ps);
    }
  }

  lemma {:induction false} CleanOperationOnlyDescriptions(op: Json)
    requires CleanOperation(op).Success?
    ensures StripAll(CleanOperation(op).value) == StripAll(op)
  {
    if op.JObj? {
      var o := DeleteDescription(op).value;
      DeleteDescriptionOnlyDescriptions(op);
      var ps := Get(o.fields, "parameters");
      if ps.Some? && CleanParams(ps.value).Success? {
        CleanParamsOnlyDescriptions(ps.value);
        var fs' := SetKey(o.fields, "parameters", CleanParams(ps.value).value);
        StripSetKey(o.fields, "parameters", CleanParams(ps.value).value);
        assert CleanOperation(op) == Success(JObj(fs'));
        StripObj(fs');
        StripObj(o.fields);
      }
    }
  }

  lemma {:induction false} CleanPathItemOnlyDescriptions(item: Json)
    requires CleanPathItem(item).Success?
    ensures StripAll(CleanPathItem(item).value) == StripAll(item)
  {
    if Truthy(item) {
      DeleteDescriptionOnlyDescriptions(item);
      CleanOperationEverywhere();
      MapValuesOnlyDescriptions(CleanOperation, DeleteDescription(item).value);
    }
  }

  lemma CleanOperationEverywhere()
    ensures KeepsStripped(CleanOperation)
  {
    forall x | CleanOperation(x).Success? ensures StripAll(CleanOperation(x).value) == StripAll(x) {
      CleanOperationOnlyDescriptions(x);
    }
  }

  lemma CleanPathItemEverywhere()
    ensures KeepsStripped(CleanPathItem)
  {
    forall x | CleanPathItem(x).Success? ensures StripAll(CleanPathItem(x).value) == StripAll(x) {
      CleanPathItemOnlyDescriptions(x);
    }
  }

  lemma {:induction false} CleanSchemaOnlyDescriptions(s: Json)
    requires CleanSchema(s).Success?
    ensures StripAll(CleanSchema(s).value) == StripAll(s)
  {
    DeleteDescriptionOnlyDescriptions(s);
    var cleared := DeleteDescription(s).value;
    if cleared.JObj? {
      var props := Get(cleared.fields, "properties");
      if props.Some? && !props.value.JNull? {
        PropertiesOnlyDescriptions(cleared, props.value);
        assert CleanSchema(s)
            == Success(JObj(SetKey(cleared.fields, "properties", MapValues(DeleteDescription, props.value).value)));
      }
    }
  }

  /** The direct properties of a schema, cleaned and written back. */
  lemma PropertiesOnlyDescriptions(cleared: Json, props: Json)
    requires cleared.JObj? && Get(cleared.fields, "properties") == Some(props)
    requires MapValues(DeleteDescription, props).Success?
    ensures StripAll(JObj(SetKey(cleared.fields, "properties", MapValues(DeleteDescription, props).value)))
         == StripAll(cleared)
  {
    DeleteDescriptionEverywhere();
    SetLevelOnlyDescriptions(cleared.fields, "properties", DeleteDescription, props);
    StripObj(SetKey(cleared.fields, "properties", MapValues(DeleteDescription, props).value));
    StripObj(cleared.fields);
  }

  /** Writing back a cleaned level under its key, for any `f` that deletes
      only descriptions. */
  lemma SetLevelOnlyDescriptions(fs: seq<Field>, k: string, f: Json -> Result<Json, Error>, j: Json)
    requires Get(fs, k) == Some(j) && MapValues(f, j).Success?
    requires KeepsStripped(f)
    ensures StripFields(SetKey(fs, k, MapValues(f, j).value)) == StripFields(fs)
  {
    MapValuesOnlyDescriptions(f, j);
    StripSetKey(fs, k, MapValues(f, j).value);
  }

  lemma {:induction false} CleanPathsOnlyDescriptions(root: Json)
    requires CleanPaths(root).Success?
    ensures StripAll(CleanPaths(root).value) == StripAll(root)
  {
    var paths := Get(root.fields, "paths").value;
    CleanPathItemEverywhere();
    SetLevelOnlyDescriptions(root.fields, "paths", CleanPathItem, paths);
    var fs' := SetKey(root.fields, "paths", MapValues(CleanPathItem, paths).value);
    assert CleanPaths(root) == Success(JObj(fs'));
    StripObj(fs');
    StripObj(root.fields);
  }

  lemma CleanSchemaEverywhere()
    ensures KeepsStripped(CleanSchema)
  {
    forall x | CleanSchema(x).Success? ensures StripAll(CleanSchema(x).value) == StripAll(x) {
      CleanSchemaOnlyDescriptions(x);
    }
  }

  /** Replacing `components.schemas` by a value with the same stripped image. */
  lemma {:induction false} StripSetSchemas(root: Json, schemas': Json)
    requires root.JObj? && SchemasOf(root).Some?
    requires StripAll(schemas') == StripAll(SchemasOf(root).value)
    ensures StripAll(WithSchemas(root, schemas')) == StripAll(root)
  {
    var components := Get(root.fields, "components").value;
    assert components.JObj? && Get(components.fields, "schemas") == SchemasOf(root);
    StripSetKey(components.fields, "schemas", schemas');
    var components' := JObj(SetKey(components.fields, "schemas", schemas'));
    StripObj(components'.fields);
    StripObj(components.fields);
    StripSetKey(root.fields, "components", components');
    StripObj(SetKey(root.fields, "components", components'));
    StripObj(root.fields);
  }

  lemma StripObj(fs: seq<Field>)
    ensures StripAll(JObj(fs)) == JObj(StripFields(fs))
  {
  }

  lemma {:induction false} CleanComponentsOnlyDescriptions(root: Json)
    requires root.JObj? && CleanComponents(root).Success?
    ensures StripAll(CleanComponents(root).value) == StripAll(root)
  {
    var schemas := SchemasOf(root);
    if schemas.Some? {
      CleanSchemaEverywhere();
      MapValuesOnlyDescriptions(CleanSchema, schemas.value);
      StripSetSchemas(root, MapValues(CleanSchema, schemas.value).value);
    }
  }

  /** `preprocessSpec` deletes nothing but `description` keys, at any depth. */
  lemma {:induction false} PreprocessOnlyDescriptions(root: Json)
    requires PreprocessSpec(root).Success?
    ensures StripAll(PreprocessSpec(root).value) == StripAll(root)
  {
    CleanPathsOnlyDescriptions(root);
    CleanComponentsOnlyDescriptions(CleanPaths(root).value);
  }

  // ---------------------------------------------------------------------------
  // Idempotence: a second pass finds nothing left to delete.

  lemma {:induction false} MapAllIdentity(f: Json -> Result<Json, Error>, xs: seq<Json>)
    requires forall i :: 0 <= i < |xs| ==> f(xs[i]) == Success(xs[i])
    ensures MapAll(f, xs) == Success(xs)
  {
    var r := MapAll(f, xs);
    assert r.value == xs;
  }

  /** A level whose cleaned elements are fixpoints of `f` is a fixpoint of the level. */
  lemma {:induction false} MapValuesIdempotent(f: Json -> Result<Json, Error>, j: Json)
    requires MapValues(f, j).Success?
    requires Idempotent(f)
    ensures MapValues(f, MapValues(f, j).value) == MapValues(f, j)
  {
    var vs := MapAll(f, Values(j)).value;
    var k := WithValues(j, vs);
    assert forall i :: 0 <= i < |vs| ==> f(Values(j)[i]) == Success(vs[i]);
    MapAllIdentity(f, Values(k));
    WithOwnValues(k);
  }

  lemma DeleteDescriptionIdempotent()
    ensures Idempotent(DeleteDescription)
  {
  }

  lemma {:induction false} CleanOperationIdempotent(op: Json)
    requires CleanOperation(op).Success?
    ensures CleanOperation(CleanOperation(op).value) == CleanOperation(op)
  {
    if op.JObj? {
      var o := DeleteDescription(op).value;
      var ps := Get(o.fields, "parameters");
      if ps.Some? {
        var ps' := CleanParams(ps.value).value;
        if ps.value.JArr? {
          DeleteDescriptionIdempotent();
          MapValuesIdempotent(DeleteDescription, ps.value);
        }
        assert CleanParams(ps') == Success(ps');
        var y := JObj(SetKey(o.fields, "parameters", ps'));
        SetKeyOther(o.fields, "parameters", ps', "description");
        assert DeleteDescription(y) == Success(y);
        SetKeyHit(o.fields, "parameters", ps');
      }
    }
  }

  lemma {:induction false} CleanPathItemIdempotent(item: Json)
    requires CleanPathItem(item).Success?
    ensures CleanPathItem(CleanPathItem(item).value) == CleanPathItem(item)
  {
    if Truthy(item) {
      var cleared := DeleteDescription(item).value;
      var y := CleanPathItem(item).value;
      assert Truthy(y);
      assert DeleteDescription(y) == Success(y);
      CleanOperationIdempotentEverywhere();
      MapValuesIdempotent(CleanOperation, cleared);
    }
  }

  lemma CleanOperationIdempotentEverywhere()
    ensures Idempotent(CleanOperation)
  {
    forall x | CleanOperation(x).Success? ensures CleanOperation(CleanOperation(x).value) == CleanOperation(x) {
      CleanOperationIdempotent(x);
    }
  }

  lemma CleanPathItemIdempotentEverywhere()
    ensures Idempotent(CleanPathItem)
  {
    forall x | CleanPathItem(x).Success? ensures CleanPathItem(CleanPathItem(x).value) == CleanPathItem(x) {
      CleanPathItemIdempotent(x);
    }
  }

  lemma CleanSchemaIdempotentEverywhere()
    ensures Idempotent(CleanSchema)
  {
    forall x | CleanSchema(x).Success? ensures CleanSchema(CleanSchema(x).value) == CleanSchema(x) {
      CleanSchemaIdempotent(x);
    }
  }

  lemma {:induction false} CleanSchemaIdempotent(s: Json)
    requires CleanSchema(s).Success?
    ensures CleanSchema(CleanSchema(s).value) == CleanSchema(s)
  {
    var cleared := DeleteDescription(s).value;
    if cleared.JObj? {
      var props := Get(cleared.fields, "properties");
      if props.Some? && !props.value.JNull? {
        var props' := MapValues(DeleteDescription, props.value).value;
        DeleteDescriptionIdempotent();
        MapValuesIdempotent(DeleteDescription, props.value);
        var y := JObj(SetKey(cleared.fields, "properties", props'));
        SetKeyOther(cleared.fields, "properties", props', "description");
        assert DeleteDescription(y) == Success(y);
        SetKeyHit(cleared.fields, "properties", props');
      }
    }
  }

  lemma {:induction false} CleanPathsIdempotent(root: Json)
    requires CleanPaths(root).Success?
    ensures CleanPaths(CleanPaths(root).value) == CleanPaths(root)
  {
    var paths := Get(root.fields, "paths").value;
    var paths' := MapValues(CleanPathItem, paths).value;
    CleanPathItemIdempotentEverywhere();
    MapValuesIdempotent(CleanPathItem, paths);
    var y := CleanPaths(root).value;
    assert Get(y.fields, "paths") == Some(paths');
  }

  lemma {:induction false} CleanComponentsIdempotent(root: Json)
    requires root.JObj? && CleanComponents(root).Success?
    ensures CleanComponents(CleanComponents(root).value) == CleanComponents(root)
  {
    var schemas := SchemasOf(root);
    if schemas.Some? {
      var schemas' := MapValues(CleanSchema, schemas.value).value;
      CleanSchemaIdempotentEverywhere();
      MapValuesIdempotent(CleanSchema, schemas.value);
      assert !schemas'.JNull?;
      WithSchemasAgain(root, schemas');
    }
  }

  /** Cleaning the components leaves `paths` where it was. */
  lemma CleanComponentsKeepsPaths(root: Json)
    requires root.JObj? && CleanComponents(root).Success?
    ensures Get(CleanComponents(root).value.fields, "paths") == Get(root.fields, "paths")
  {
  }

  /** Running `preprocessSpec` on its own output changes nothing. */
  lemma {:induction false} PreprocessIdempotent(root: Json)
    requires PreprocessSpec(root).Success?
    ensures PreprocessSpec(PreprocessSpec(root).value) == PreprocessSpec(root)
  {
    var p := CleanPaths(root).value;
    var q := CleanComponents(p).value;
    CleanPathsIdempotent(root);
    CleanComponentsKeepsPaths(p);
    assert Get(q.fields, "paths") == Get(p.fields, "paths");
    var pathsValue := Get(p.fields, "paths").value;
    assert MapValues(CleanPathItem, pathsValue) == Success(pathsValue);
    assert CleanPaths(q) == Success(q);
    CleanComponentsIdempotent(p);
  }

  // ---------------------------------------------------------------------------
  // What is gone afterwards, and what is deliberately left behind.

  /** An operation object with no description left, nor in its parameters. */
  predicate OperationCleaned(op: Json) {
    && !HasTruthyDescription(op)
    && (op.JObj? && Get(op.fields, "parameters").Some? && Get(op.fields, "parameters").value.JArr? ==>
          forall p :: p in Get(op.fields, "parameters").value.items ==> !HasTruthyDescription(p))
  }

  predicate PathItemCleaned(item: Json) {
    !HasTruthyDescription(item) && forall op :: op in Values(item) ==> OperationCleaned(op)
  }

  predicate SchemaCleaned(s: Json) {
    && !HasTruthyDescription(s)
    && (s.JObj? && Get(s.fields, "properties").Some? ==>
          forall p :: p in Values(Get(s.fields, "properties").value) ==> !HasTruthyDescription(p))
  }

  /** No truthy description is left at any of the levels the preprocessor visits. */
  predicate DescriptionsRemoved(root: Json) {
    && root.JObj? && Get(root.fields, "paths").Some?
    && (forall item :: item in Values(Get(root.fields, "paths").value) ==> PathItemCleaned(item))
    && (SchemasOf(root).Some? ==> forall s :: s in Values(SchemasOf(root).value) ==> SchemaCleaned(s))
  }

  lemma {:induction false} MapValuesElements(f: Json -> Result<Json, Error>, j: Json, y: Json)
    requires MapValues(f, j) == Success(y)
    ensures forall v :: v in Values(y) ==> exists x :: x in Values(j) && f(x) == Success(v)
  {
    var vs := MapAll(f, Values(j)).value;
    forall v | v in Values(y) ensures exists x :: x in Values(j) && f(x) == Success(v) {
      var i :| 0 <= i < |vs| && vs[i] == v;
      assert Values(j)[i] in Values(j);
    }
  }

  lemma {:induction false} CleanOperationRemoves(op: Json)
    requires CleanOperation(op).Success?
    ensures OperationCleaned(CleanOperation(op).value)
  {
    if op.JObj? {
      var o := DeleteDescription(op).value;
      var ps := Get(o.fields, "parameters");
      if ps.Some? {
        var ps' := CleanParams(ps.value).value;
        var y := JObj(SetKey(o.fields, "parameters", ps'));
        assert Get(y.fields, "parameters") == Some(ps');
        if ps'.JArr? {
          MapValuesElements(DeleteDescription, ps.value, ps');
        }
      }
    }
  }

  lemma {:induction false} CleanPathItemRemoves(item: Json)
    requires CleanPathItem(item).Success?
    ensures PathItemCleaned(CleanPathItem(item).value)
  {
    if Truthy(item) {
      var y := CleanPathItem(item).value;
      MapValuesElements(CleanOperation, DeleteDescription(item).value, y);
      forall op | op in Values(y) ensures OperationCleaned(op) {
        var x :| x in Values(DeleteDescription(item).value) && CleanOperation(x) == Success(op);
        CleanOperationRemoves(x);
      }
    }
  }

  lemma {:induction false} CleanSchemaRemoves(s: Json)
    requires CleanSchema(s).Success?
    ensures SchemaCleaned(CleanSchema(s).value)
  {
    var cleared := DeleteDescription(s).value;
    if cleared.JObj? {
      var props := Get(cleared.fields, "properties");
      if props.Some? && !props.value.JNull? {
        var props' := MapValues(DeleteDescription, props.value).value;
        var y := JObj(SetKey(cleared.fields, "properties", props'));
        assert Get(y.fields, "properties") == Some(props');
        MapValuesElements(DeleteDescription, props.value, props');
      }
    }
  }

  lemma {:induction false} CleanPathsRemoves(root: Json)
    requires CleanPaths(root).Success?
    ensures Get(CleanPaths(root).value.fields, "paths").Some?
    ensures forall item :: item in Values(Get(CleanPaths(root).value.fields, "paths").value) ==> PathItemCleaned(item)
  {
    var paths := Get(root.fields, "paths").value;
    var paths' := MapValues(CleanPathItem, paths).value;
    assert Get(CleanPaths(root).value.fields, "paths") == Some(paths');
    MapValuesElements(CleanPathItem, paths, paths');
    forall item | item in Values(paths') ensures PathItemCleaned(item) {
      var x :| x in Values(paths) && CleanPathItem(x) == Success(item);
      CleanPathItemRemoves(x);
    }
  }

  lemma {:induction false} CleanComponentsRemoves(root: Json)
    requires root.JObj? && CleanComponents(root).Success?
    ensures var q := CleanComponents(root).value;
      SchemasOf(q).Some? ==> forall s :: s in Values(SchemasOf(q).value) ==> SchemaCleaned(s)
  {
    var q := CleanComponents(root).value;
    var schemas := SchemasOf(root);
    if schemas.Some? {
      var schemas' := MapValues(CleanSchema, schemas.value).value;
      assert !schemas'.JNull? && q == WithSchemas(root, schemas');
      MapValuesElements(CleanSchema, schemas.value, schemas');
      forall s | s in Values(schemas') ensures SchemaCleaned(s) {
        var x :| x in Values(schemas.value) && CleanSchema(x) == Success(s);
        CleanSchemaRemoves(x);
      }
    }
  }

  /** After a successful run every visited level is free of (truthy) descriptions. */
  lemma {:induction false} PreprocessRemovesDescriptions(root: Json)
    requires PreprocessSpec(root).Success?
    ensures DescriptionsRemoved(PreprocessSpec(root).value)
  {
    var p := CleanPaths(root).value;
    CleanPathsRemoves(root);
    CleanComponentsKeepsPaths(p);
    CleanComponentsRemoves(p);
  }

  /** The `parameters` array shared by a path item is an array, not an object,
      so the entry loop skips it: its parameters keep their descriptions. */
  lemma {:induction false} PathParametersUntouched(item: Json, ps: seq<Json>)
    requires item.JObj? && Get(item.fields, "parameters") == Some(JArr(ps))
    requires CleanPathItem(item).Success?
    ensures Get(CleanPathItem(item).value.fields, "parameters") == Some(JArr(ps))
  {
    var cleared := DeleteDescription(item).value;
    var y := CleanPathItem(item).value;
    assert Get(cleared.fields, "parameters") == Some(JArr(ps));
    GetSameKeys(cleared.fields, y.fields, "parameters");
    var i :| 0 <= i < |cleared.fields| && Get(cleared.fields, "parameters") == Some(cleared.fields[i].value)
      && Get(y.fields, "parameters") == Some(y.fields[i].value);
    assert Values(cleared)[i] == JArr(ps);
    assert CleanOperation(JArr(ps)) == Success(Values(y)[i]);
  }

  /** Deeper levels are kept: a schema property's own nested properties keep
      their descriptions, since only the property itself is passed to deleteDescription. */
  lemma NestedPropertyDescriptionKept()
    ensures var inner := JObj([Field("description", JStr("kept"))]);
      var prop := JObj([Field("properties", JObj([Field("x", inner)]))]);
      var schema := JObj([Field("properties", JObj([Field("p", prop)]))]);
      CleanSchema(schema) == Success(schema)
  {
    var inner := JObj([Field("description", JStr("kept"))]);
    var prop := JObj([Field("properties", JObj([Field("x", inner)]))]);
    var props := JObj([Field("p", prop)]);
    var schema := JObj([Field("properties", props)]);
    assert DeleteDescription(prop) == Success(prop);
    assert Values(props) == [prop];
    MapAllIdentity(DeleteDescription, [prop]);
    assert WithValues(props, [prop]) == props;
  }

  /** A falsy description, such as the empty string, stays where it is. */
  lemma FalsyDescriptionKept()
    ensures var op := JObj([Field("description", JStr("")), Field("responses", JObj([]))]);
      DeleteDescription(op) == Success(op)
  {
  }

  // ---------------------------------------------------------------------------
  // The loops of `preprocessSpec`, each element visited in order and updated
  // in place, and the document object they rewrite.

  lemma {:induction false} MapAllSnoc(f: Json -> Result<Json, Error>, xs: seq<Json>, x: Json)
    requires MapAll(f, xs).Success?
    ensures f(x).Failure? ==> MapAll(f, xs + [x]) == Failure(f(x).error)
    ensures f(x).Success? ==> MapAll(f, xs + [x]) == Success(MapAll(f, xs).value + [f(x).value])
  {
    if |xs| > 0 {
      assert (xs + [x])[0] == xs[0] && (xs + [x])[1..] == xs[1..] + [x];
      MapAllSnoc(f, xs[1..], x);
      var y := f(xs[0]).value;
      var rest := MapAll(f, xs[1..]).value;
      assert MapAll(f, xs) == Success([y] + rest);
      if f(x).Success? {
        assert MapAll(f, xs + [x]) == Success([y] + (rest + [f(x).value]));
        assert [y] + (rest + [f(x).value]) == ([y] + rest) + [f(x).value];
      }
    } else {
      assert xs + [x] == [x] && [x][1..] == [];
      assert MapAll(f, xs) == Success([]);
      if f(x).Success? {
        assert MapAll(f, [x]) == Success([f(x).value] + []);
        assert [] + [f(x).value] == [f(x).value] + [];
      }
    }
  }

  lemma {:induction false} MapAllFailurePrefix(f: Json -> Result<Json, Error>, xs: seq<Json>, n: nat)
    requires n <= |xs| && MapAll(f, xs[..n]).Failure?
    ensures MapAll(f, xs) == MapAll(f, xs[..n])
  {
    assert n > 0;
    if f(xs[0]).Success? {
      assert xs[..n][1..] == xs[1..][..n - 1];
      MapAllFailurePrefix(f, xs[1..], n - 1);
    }
  }

  /** The part of the loop's sequence not yet visited is still the input's. */
  lemma SameAhead<T>(vs: seq<T>, xs: seq<T>, i: nat)
    requires i < |vs| == |xs| && vs[i..] == xs[i..]
    ensures vs[i] == xs[i]
  {
    assert vs[i..][0] == xs[i..][0];
  }

  lemma UpdateAhead<T>(vs: seq<T>, xs: seq<T>, i: nat, v: T)
    requires i < |vs| == |xs| && vs[i..] == xs[i..]
    ensures vs[i := v][i + 1..] == xs[i + 1..]
  {
    assert vs[i + 1..] == vs[i..][1..];
  }

  /** One step of a loop that visits `xs` in order and updates it in place. */
  lemma MapAllStep(f: Json -> Result<Json, Error>, xs: seq<Json>, vs: seq<Json>, i: nat)
    requires i < |xs| == |vs| && MapAll(f, xs[..i]) == Success(vs[..i])
    ensures f(xs[i]).Failure? ==> MapAll(f, xs) == Failure(f(xs[i]).error)
    ensures f(xs[i]).Success? ==> MapAll(f, xs[..i + 1]) == Success(vs[i := f(xs[i]).value][..i + 1])
  {
    assert xs[..i + 1] == xs[..i] + [xs[i]];
    MapAllSnoc(f, xs[..i], xs[i]);
    if f(xs[i]).Failure? {
      MapAllFailurePrefix(f, xs, i + 1);
    } else {
      assert vs[i := f(xs[i]).value][..i + 1] == vs[..i] + [f(xs[i]).value];
    }
  }

  /** `operation.parameters.forEach(p => deleteDescription(p))`. */
  method ProcessParams(ps: Json) returns (r: Result<Json, Error>)
    ensures r == CleanParams(ps)
  {
    if ps.JNull? { return Success(ps); }
    if !ps.JArr? { return Failure(TypeError("operation.parameters.forEach is not a function")); }
    var items := ps.items;
    var i := 0;
    while i < |items|
      invariant 0 <= i <= |items| == |ps.items|
      invariant MapAll(DeleteDescription, ps.items[..i]) == Success(items[..i])
      invariant items[i..] == ps.items[i..]
    {
      SameAhead(items, ps.items, i);
      MapAllStep(DeleteDescription, ps.items, items, i);
      var param := DeleteDescription(items[i]);
      if param.Failure? { return Failure(param.error); }
      UpdateAhead(items, ps.items, i, param.value);
      items := items[i := param.value];
      i := i + 1;
    }
    assert ps.items[..i] == ps.items && items[..i] == items;
    return Success(JArr(items));
  }

  /** The body of the entry loop: skip non-objects, delete, then the parameters. */
  method ProcessOperation(op: Json) returns (r: Result<Json, Error>)
    ensures r == CleanOperation(op)
  {
    if !IsObjectTyped(op) { return Success(op); }
    var o := DeleteDescription(op);
    if o.Failure? || !o.value.JObj? { return o; }
    var fields := o.value.fields;
    if HasKey(fields, "parameters") {
      var ps := ProcessParams(Get(fields, "parameters").value);
      if ps.Failure? { return Failure(ps.error); }
      fields := SetKey(fields, "parameters", ps.value);
    }
    return Success(JObj(fields));
  }

  /** The entry loop over one path item. */
  method ProcessPathItem(item: Json) returns (r: Result<Json, Error>)
    ensures r == CleanPathItem(item)
  {
    if !Truthy(item) { return Success(item); }
    var cleared := DeleteDescription(item).value;
    var xs := Values(cleared);
    var vs := xs;
    var i := 0;
    while i < |vs|
      invariant 0 <= i <= |vs| == |xs|
      invariant MapAll(CleanOperation, xs[..i]) == Success(vs[..i])
      invariant vs[i..] == xs[i..]
    {
      SameAhead(vs, xs, i);
      MapAllStep(CleanOperation, xs, vs, i);
      var operation := ProcessOperation(vs[i]);
      if operation.Failure? { return Failure(operation.error); }
      UpdateAhead(vs, xs, i, operation.value);
      vs := vs[i := operation.value];
      i := i + 1;
    }
    assert xs[..i] == xs && vs[..i] == vs;
    return Success(WithValues(cleared, vs));
  }

  /** The outer loop over `spec.paths`. */
  method ProcessPaths(root: Json) returns (r: Result<Json, Error>)
    ensures r == CleanPaths(root)
  {
    if !root.JObj? || Get(root.fields, "paths").None? || Get(root.fields, "paths").value.JNull? {
      return Failure(TypeError("cannot convert undefined or null to object"));
    }
    var paths := Get(root.fields, "paths").value;
    var xs := Values(paths);
    var vs := xs;
    var i := 0;
    while i < |vs|
      invariant 0 <= i <= |vs| == |xs|
      invariant MapAll(CleanPathItem, xs[..i]) == Success(vs[..i])
      invariant vs[i..] == xs[i..]
    {
      SameAhead(vs, xs, i);
      MapAllStep(CleanPathItem, xs, vs, i);
      var operations := ProcessPathItem(vs[i]);
      if operations.Failure? {
        CleanPathsFails(root, operations.error);
        return Failure(operations.error);
      }
      UpdateAhead(vs, xs, i, operations.value);
      vs := vs[i := operations.value];
      i := i + 1;
    }
    assert xs[..i] == xs && vs[..i] == vs;
    CleanPathsOf(root, vs);
    return Success(JObj(SetKey(root.fields, "paths", WithValues(paths, vs))));
  }

  lemma CleanPathsFails(root: Json, e: Error)
    requires root.JObj? && Get(root.fields, "paths").Some? && !Get(root.fields, "paths").value.JNull?
    requires MapAll(CleanPathItem, Values(Get(root.fields, "paths").value)) == Failure(e)
    ensures CleanPaths(root) == Failure(e)
  {
  }

  lemma CleanPathsOf(root: Json, vs: seq<Json>)
    requires root.JObj? && Get(root.fields, "paths").Some? && !Get(root.fields, "paths").value.JNull?
    requires MapAll(CleanPathItem, Values(Get(root.fields, "paths").value)) == Success(vs)
    ensures CleanPaths(root) == Success(JObj(SetKey(root.fields, "paths", WithValues(Get(root.fields, "paths").value, vs))))
  {
  }

  /** The loop over a schema's direct properties. */
  method ProcessProperties(properties: Json) returns (r: Result<Json, Error>)
    ensures r == MapValues(DeleteDescription, properties)
  {
    var xs := Values(properties);
    var vs := xs;
    var i := 0;
    while i < |vs|
      invariant 0 <= i <= |vs| == |xs|
      invariant MapAll(DeleteDescription, xs[..i]) == Success(vs[..i])
      invariant vs[i..] == xs[i..]
    {
      SameAhead(vs, xs, i);
      MapAllStep(DeleteDescription, xs, vs, i);
      var prop := DeleteDescription(vs[i]);
      if prop.Failure? { return Failure(prop.error); }
      UpdateAhead(vs, xs, i, prop.value);
      vs := vs[i := prop.value];
      i := i + 1;
    }
    assert xs[..i] == xs && vs[..i] == vs;
    return Success(WithValues(properties, vs));
  }

  /** One component schema: delete, then its direct properties. */
  method ProcessSchema(s: Json) returns (r: Result<Json, Error>)
    ensures r == CleanSchema(s)
  {
    var cleared := DeleteDescription(s);
    if cleared.Failure? || !cleared.value.JObj? { return cleared; }
    var fields := cleared.value.fields;
    var properties := Get(fields, "properties");
    if properties.None? || properties.value.JNull? { return cleared; }
    var properties' := ProcessProperties(properties.value);
    if properties'.Failure? { return Failure(properties'.error); }
    return Success(JObj(SetKey(fields, "properties", properties'.value)));
  }

  /** The loop over `spec.components?.schemas ?? {}`. */
  method ProcessComponents(root: Json) returns (r: Result<Json, Error>)
    requires root.JObj?
    ensures r == CleanComponents(root)
  {
    var schemas := SchemasOf(root);
    if schemas.None? { return Success(root); }
    var xs := Values(schemas.value);
    var vs := xs;
    var i := 0;
    while i < |vs|
      invariant 0 <= i <= |vs| == |xs|
      invariant MapAll(CleanSchema, xs[..i]) == Success(vs[..i])
      invariant vs[i..] == xs[i..]
    {
      SameAhead(vs, xs, i);
      MapAllStep(CleanSchema, xs, vs, i);
      var schema := ProcessSchema(vs[i]);
      if schema.Failure? {
        CleanComponentsFails(root, schema.error);
        return Failure(schema.error);
      }
      UpdateAhead(vs, xs, i, schema.value);
      vs := vs[i := schema.value];
      i := i + 1;
    }
    assert xs[..i] == xs && vs[..i] == vs;
    CleanComponentsOf(root, vs);
    return Success(WithSchemas(root, WithValues(schemas.value, vs)));
  }

  lemma CleanComponentsFails(root: Json, e: Error)
    requires root.JObj? && SchemasOf(root).Some? && MapAll(CleanSchema, Values(SchemasOf(root).value)) == Failure(e)
    ensures CleanComponents(root) == Failure(e)
  {
  }

  lemma CleanComponentsOf(root: Json, vs: seq<Json>)
    requires root.JObj? && SchemasOf(root).Some? && MapAll(CleanSchema, Values(SchemasOf(root).value)) == Success(vs)
    ensures CleanComponents(root) == Success(WithSchemas(root, WithValues(SchemasOf(root).value, vs)))
  {
  }

  /** The parsed document that `preprocessSpec` rewrites in place. */
  class SpecDocument {
    var root: Json

    constructor(root: Json)
      ensures this.root == root
    {
      this.root := root;
    }

    /** `preprocessSpec(spec)`: on success the document is the cleaned one;
        on a throw the error is reported and the document is left as it was. */
    method Preprocess() returns (error: Option<Error>)
      modifies this
      ensures error.None? <==> PreprocessSpec(old(root)).Success?
      ensures error.None? ==> root == PreprocessSpec(old(root)).value
      ensures error.Some? ==> error.value == PreprocessSpec(old(root)).error && root == old(root)
    {
      var afterPaths := ProcessPaths(root);
      if afterPaths.Failure? { return Some(afterPaths.error); }
      var done := ProcessComponents(afterPaths.value);
      if done.Failure? { return Some(done.error); }
      root := done.value;
      return None;
    }
  }
}
