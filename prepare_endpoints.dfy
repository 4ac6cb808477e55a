/** src/prepareEndpoints.ts: the operations of the document (`getAllOperations`)
    and the description of each endpoint's return type (`getReturnType`). */
module PrepareEndpoints {
  import opened Wrappers
  import opened OpenApi
  import opened Text
  import opened SchemaLookup
  import opened GenerateEndpoint

  const ValidMethods: seq<string> := ["get", "post", "put", "delete", "patch"]

  /** `isOperationObject`: `typeof obj === "object" && "responses" in obj`.
      `typeof null` is "object" too, and `"responses" in null` throws. */
  function IsOperationObject(v: EntryValue): (r: Result<bool, Error>)
    ensures r.Failure? <==> v.NullEntry?
    ensures r == Success(true) <==> v.OperationObject? && v.op.hasResponses
  {
    match v
    case OperationObject(op) => Success(op.hasResponses)
    case NullEntry => Failure(TypeError("cannot use 'in' operator to search for 'responses' in null"))
    case ArrayEntry(_) => Success(false)
    case TextEntry(_) => Success(false)
    case ScalarEntry(_) => Success(false)
  }

  /** Entry `e` of a path item becomes an operation definition. */
  predicate Selected(e: Entry) {
    e.key in ValidMethods && e.value.OperationObject? && e.value.op.hasResponses
  }

  /** The definition entry `e` contributes, if it is selected. */
  function EntryDefs(path: string, e: Entry, pathParameters: Option<seq<Parameter>>): seq<OperationDef> {
    if Selected(e) then [OperationDef(e.key, path, e.value.op, pathParameters)] else []
  }

  /** The definitions of the selected entries, in entry order, one per
      selected entry: the filter, then the map, with no throw. */
  function SelectedDefs(path: string, entries: seq<Entry>, pathParameters: Option<seq<Parameter>>): seq<OperationDef> {
    if |entries| == 0 then []
    else EntryDefs(path, entries[0], pathParameters) + SelectedDefs(path, entries[1..], pathParameters)
  }

  /** The filter and map over the entries of one path item, in entry order.
      The filter runs over all entries first, so its first throw wins; the
      map's "expected operation to be an object" check can never fire. */
  function SelectOperations(path: string, entries: seq<Entry>, pathParameters: Option<seq<Parameter>>)
    : (r: Result<seq<OperationDef>, Error>)
    ensures r.Failure? <==> exists i :: 0 <= i < |entries| && entries[i].key in ValidMethods && entries[i].value.NullEntry?
    ensures r.Failure? ==> r.error.TypeError?
    ensures r.Success? ==> forall d :: d in r.value <==>
      exists i :: 0 <= i < |entries| && Selected(entries[i])
        && d == OperationDef(entries[i].key, path, entries[i].value.op, pathParameters)
    ensures r.Success? ==> |r.value| <= |entries|
  {
    if |entries| == 0 then Success([])
    else
      var e := entries[0];
      var keep := if e.key in ValidMethods then IsOperationObject(e.value) else Success(false);
      var rest := SelectOperations(path, entries[1..], pathParameters);
      assert forall i :: 1 <= i < |entries| ==> entries[i] == entries[1..][i - 1];
      assert forall i :: 0 <= i < |entries[1..]| ==> entries[1..][i] == entries[i + 1];
      if keep.Failure? then Failure(keep.error)
      else if rest.Failure? then rest
      else if keep.value then Success([OperationDef(e.key, path, e.value.op, pathParameters)] + rest.value)
      else rest
  }

  /** A path item that does not throw yields its selected entries in entry
      order, each once. */
  lemma {:induction false} SelectOperationsInOrder(path: string, entries: seq<Entry>, pathParameters: Option<seq<Parameter>>)
    requires SelectOperations(path, entries, pathParameters).Success?
    ensures SelectOperations(path, entries, pathParameters).value == SelectedDefs(path, entries, pathParameters)
    decreases |entries|
  {
    if |entries| > 0 {
      var e := entries[0];
      var rest := SelectOperations(path, entries[1..], pathParameters);
      assert rest.Success?;
      SelectOperationsInOrder(path, entries[1..], pathParameters);
      if Selected(e) {
        assert SelectOperations(path, entries, pathParameters).value
          == [OperationDef(e.key, path, e.value.op, pathParameters)] + rest.value;
      } else {
        assert SelectOperations(path, entries, pathParameters) == rest;
      }
    }
  }

  /** Selecting from a concatenation selects from each part, in order. */
  lemma {:induction false} SelectOperationsAppend(path: string, a: seq<Entry>, b: seq<Entry>, pathParameters: Option<seq<Parameter>>)
    requires SelectOperations(path, a, pathParameters).Success? && SelectOperations(path, b, pathParameters).Success?
    ensures SelectOperations(path, a + b, pathParameters)
      == Success(SelectOperations(path, a, pathParameters).value + SelectOperations(path, b, pathParameters).value)
    decreases |a|
  {
    var ra, rb := SelectOperations(path, a, pathParameters).value, SelectOperations(path, b, pathParameters).value;
    if |a| == 0 {
      assert a + b == b;
      assert [] + rb == rb;
    } else {
      assert (a + b)[0] == a[0];
      assert (a + b)[1..] == a[1..] + b;
      SelectOperationsAppend(path, a[1..], b, pathParameters);
      var h := EntryDefs(path, a[0], pathParameters);
      var rt := SelectOperations(path, a[1..], pathParameters).value;
      assert Selected(a[0]) ==> ra == h + rt;
      assert !Selected(a[0]) ==> ra == rt;
      PathTemplate.AppendAssoc(h, rt, rb);
    }
  }

  /** `operationsForPath.parameters?.map(apiGen.resolve)`. */
  function PathParameters(apiGen: ApiGen, item: PathItem): Option<seq<Parameter>> {
    if item.parameters.Some? then Some(ResolveParams(apiGen, item.parameters.value)) else None
  }

  /** The operations of one path (`[]` for a null path item); all of them
      share the one resolved path-level parameter list. */
  function OperationsForPath(apiGen: ApiGen, pe: PathEntry): (r: Result<seq<OperationDef>, Error>)
    ensures pe.item.None? ==> r == Success([])
    ensures r.Success? ==> forall d :: d in r.value ==>
      && pe.item.Some? && d.path == pe.path && d.httpMethod in ValidMethods && d.operation.hasResponses
      && d.pathParameters == PathParameters(apiGen, pe.item.value)
  {
    if pe.item.None? then Success([])
    else SelectOperations(pe.path, pe.item.value.entries, PathParameters(apiGen, pe.item.value))
  }

  /** `getAllOperations`: the `flatMap` over `spec.paths`. */
  function AllOperations(apiGen: ApiGen, paths: seq<PathEntry>): (r: Result<seq<OperationDef>, Error>)
    ensures r.Failure? ==> r.error.TypeError?
  {
    if |paths| == 0 then Success([])
    else
      var first :- OperationsForPath(apiGen, paths[0]);
      var rest :- AllOperations(apiGen, paths[1..]);
      Success(first + rest)
  }

  /** Path order: the operations of a concatenation of
      path lists are those of the first list followed by those of the second. */
  lemma {:induction false} AllOperationsAppend(apiGen: ApiGen, a: seq<PathEntry>, b: seq<PathEntry>)
    requires AllOperations(apiGen, a).Success? && AllOperations(apiGen, b).Success?
    ensures AllOperations(apiGen, a + b) == Success(AllOperations(apiGen, a).value + AllOperations(apiGen, b).value)
  {
    if |a| == 0 {
      assert a + b == b;
      assert AllOperations(apiGen, a).value == [];
      assert [] + AllOperations(apiGen, b).value == AllOperations(apiGen, b).value;
    } else {
      assert (a + b)[0] == a[0];
      assert (a + b)[1..] == a[1..] + b;
      AllOperationsAppend(apiGen, a[1..], b);
      var first := OperationsForPath(apiGen, a[0]).value;
      var ra := AllOperations(apiGen, a[1..]).value;
      var rb := AllOperations(apiGen, b).value;
      assert first + (ra + rb) == (first + ra) + rb;
    }
  }

  /** The definitions of one path entry when nothing throws. */
  function PathDefs(apiGen: ApiGen, pe: PathEntry): seq<OperationDef> {
    if pe.item.None? then [] else SelectedDefs(pe.path, pe.item.value.entries, PathParameters(apiGen, pe.item.value))
  }

  /** The definitions of all paths when nothing throws: path order, then entry order. */
  function AllDefs(apiGen: ApiGen, paths: seq<PathEntry>): seq<OperationDef> {
    if |paths| == 0 then [] else PathDefs(apiGen, paths[0]) + AllDefs(apiGen, paths[1..])
  }

  /** A successful `getAllOperations` lists the selected entries of the paths
      in path order, then entry order, each once. */
  lemma {:induction false} AllOperationsInOrder(apiGen: ApiGen, paths: seq<PathEntry>)
    requires AllOperations(apiGen, paths).Success?
    ensures AllOperations(apiGen, paths).value == AllDefs(apiGen, paths)
  {
    if |paths| > 0 {
      var pe := paths[0];
      AllOperationsInOrder(apiGen, paths[1..]);
      if pe.item.Some? {
        SelectOperationsInOrder(pe.path, pe.item.value.entries, PathParameters(apiGen, pe.item.value));
      }
    }
  }

  /** Every selected entry of every non-null path item yields its definition. */
  lemma {:induction false} AllOperationsComplete(apiGen: ApiGen, paths: seq<PathEntry>, k: nat, e: Entry)
    requires AllOperations(apiGen, paths).Success?
    requires k < |paths| && paths[k].item.Some? && e in paths[k].item.value.entries && Selected(e)
    ensures OperationDef(e.key, paths[k].path, e.value.op, PathParameters(apiGen, paths[k].item.value))
      in AllOperations(apiGen, paths).value
  {
    if k == 0 {
      var entries := paths[0].item.value.entries;
      var i :| 0 <= i < |entries| && entries[i] == e;
    } else {
      assert paths[1..][k - 1] == paths[k];
      AllOperationsComplete(apiGen, paths[1..], k - 1, e);
    }
  }

  /** `d` stems from a selected entry of path entry `pe` and carries that
      path's shared parameters. */
  predicate FromPath(apiGen: ApiGen, d: OperationDef, pe: PathEntry) {
    && pe.item.Some? && d.path == pe.path
    && d.httpMethod in ValidMethods && d.operation.hasResponses
    && d.pathParameters == PathParameters(apiGen, pe.item.value)
  }

  /** Every operation found stems from a selected entry of some path. */
  lemma {:induction false} AllOperationsSound(apiGen: ApiGen, paths: seq<PathEntry>)
    requires AllOperations(apiGen, paths).Success?
    ensures forall d :: d in AllOperations(apiGen, paths).value ==>
      exists k :: 0 <= k < |paths| && FromPath(apiGen, d, paths[k])
  {
    if |paths| > 0 {
      AllOperationsSound(apiGen, paths[1..]);
      var first := OperationsForPath(apiGen, paths[0]).value;
      var rest := AllOperations(apiGen, paths[1..]).value;
      forall d | d in AllOperations(apiGen, paths).value
        ensures exists k :: 0 <= k < |paths| && FromPath(apiGen, d, paths[k])
      {
        if d in first {
          assert FromPath(apiGen, d, paths[0]);
        } else {
          assert d in rest;
          var k :| 0 <= k < |paths[1..]| && FromPath(apiGen, d, paths[1..][k]);
          assert paths[k + 1] == paths[1..][k];
        }
      }
    }
  }

  const ValidK8sActions: seq<string> := ["get", "post", "put", "patch", "delete", "deletecollection", "list"]

  /** `CommonLibType` and `BasicType`. */
  datatype TypeDef =
    | CommonLibType(typeAliasName: string, libTypeName: LibName, kindTypeName: string, kindSchema: Schema, k8sGroup: string)
    | BasicType(typeAliasName: string, schema: Schema)

  /** The if-chain that assigns `libTypeName`. */
  function LibTypeFor(action: string): (r: Result<LibName, Error>)
    ensures r.Failure? <==> action !in ValidK8sActions
    ensures r.Failure? ==> r.error == UnhandledAction(action)
    ensures r == Success(Resource) <==> action in ["get", "post", "put", "patch"]
    ensures r == Success(ResourceList) <==> action == "list"
    ensures r == Success(MetaStatus) <==> action in ["delete", "deletecollection"]
  {
    if action == "get" || action == "post" || action == "put" || action == "patch" then Success(Resource)
    else if action == "list" then Success(ResourceList)
    else if action == "delete" || action == "deletecollection" then Success(MetaStatus)
    else Failure(UnhandledAction(action))
  }

  /** `getFallbackReturnType`: the 200/JSON response schema, or a throw. */
  function FallbackReturnType(apiGen: ApiGen, def: OperationDef, typeAliasName: string): (r: Result<TypeDef, Error>)
    ensures r.Failure? <==> apiGen.returnSchema(def.operation).None?
    ensures r.Failure? ==> r.error == NoReturnSchema
    ensures r.Success? ==> r.value == BasicType(typeAliasName, apiGen.returnSchema(def.operation).value)
  {
    var returnSchema := apiGen.returnSchema(def.operation);
    if returnSchema.None? then Failure(NoReturnSchema) else Success(BasicType(typeAliasName, returnSchema.value))
  }

  /** `findSchemaForGroupVersionKind` of src/prepareEndpoints.ts: it throws
      when the document has no component schemas. */
  function KindContainer(apiGen: ApiGen, spec: Document, gvk: Gvk): (r: Result<Option<Schema>, Error>)
    ensures r.Failure? <==> spec.schemas.None?
    ensures r.Failure? ==> r.error == NoSchemasInSpec
    ensures r.Success? ==> r.value == FirstSchemaMatching(apiGen, spec.schemas.value, gvk)
  {
    if spec.schemas.None? then Failure(NoSchemasInSpec) else Success(FirstSchemaMatching(apiGen, spec.schemas.value, gvk))
  }

  method FindSchemaForGroupVersionKind(apiGen: ApiGen, spec: Document, gvk: Gvk) returns (r: Result<Option<Schema>, Error>)
    ensures r == KindContainer(apiGen, spec, gvk)
  {
    if spec.schemas.None? {
      return Failure(NoSchemasInSpec);
    }
    var found := SearchSchemas(apiGen, spec.schemas.value, gvk);
    return Success(found);
  }

  /** Metadata good enough for a common-library type: an action among
      `VALID_K8S_ACTIONS` and a group/version/kind. */
  predicate HasK8sMetadata(op: Operation) {
    HasAction(op) && op.gvk.Some? && op.action.value in ValidK8sActions
  }

  /** What `getReturnType` returns, or the error it throws. */
  function ReturnTypeOf(apiGen: ApiGen, spec: Document, def: OperationDef): Result<TypeDef, Error> {
    var endpointName :- EndpointName(def, apiGen);
    if endpointName == "" then Failure(TypeError("capitalize of an empty endpoint name"))
    else
      var typeAliasName := Capitalize(endpointName) + "ApiResponse";
      var op := def.operation;
      if !HasK8sMetadata(op) then FallbackReturnType(apiGen, def, typeAliasName)
      else
        var gvk := op.gvk.value;
        var kindTypeName := Capitalize(gvk.kind);
        var containingSchema :- KindContainer(apiGen, spec, gvk);
        var kindSchema := if containingSchema.Some? then SpecSchemaOrNone(apiGen, containingSchema.value) else None;
        if kindSchema.None? then FallbackReturnType(apiGen, def, typeAliasName)
        else
          match LibTypeFor(op.action.value)
          case Failure(e) => Failure(e)
          case Success(libTypeName) =>
            Success(CommonLibType(typeAliasName, libTypeName, kindTypeName, kindSchema.value, gvk.group))
  }

  /** `getReturnType`. */
  method GetReturnType(apiGen: ApiGen, spec: Document, def: OperationDef) returns (r: Result<TypeDef, Error>)
    ensures r == ReturnTypeOf(apiGen, spec, def)
  {
    var name := EndpointName(def, apiGen);
    if name.Failure? {
      return Failure(name.error);
    }
    var endpointName := name.value;
    if endpointName == "" {
      return Failure(TypeError("capitalize of an empty endpoint name"));
    }
    var typeAliasName := Capitalize(endpointName) + "ApiResponse";
    var op := def.operation;
    if !HasAction(op) || op.gvk.None? || op.action.value !in ValidK8sActions {
      return FallbackReturnType(apiGen, def, typeAliasName);
    }
    var gvk := op.gvk.value;
    var kindTypeName := Capitalize(gvk.kind);
    var containingSchema := FindSchemaForGroupVersionKind(apiGen, spec, gvk);
    if containingSchema.Failure? {
      return Failure(containingSchema.error);
    }
    var kindSchema := if containingSchema.value.Some? then SpecSchemaOrNone(apiGen, containingSchema.value.value) else None;
    if kindSchema.None? {
      return FallbackReturnType(apiGen, def, typeAliasName);
    }
    var action := op.action.value;
    var libTypeName: LibName;
    if action == "get" || action == "post" || action == "put" || action == "patch" {
      libTypeName := Resource;
    } else if action == "list" {
      libTypeName := ResourceList;
    } else if action == "delete" || action == "deletecollection" {
      libTypeName := MetaStatus;
    } else {
      return Failure(UnhandledAction(action));
    }
    r := Success(CommonLibType(typeAliasName, libTypeName, kindTypeName, kindSchema.value, gvk.group));
  }

  /** The kind schema `getReturnType` finds for valid metadata. */
  function KindSchemaOf(apiGen: ApiGen, spec: Document, gvk: Gvk): Option<Schema>
    requires spec.schemas.Some?
  {
    var c := FirstSchemaMatching(apiGen, spec.schemas.value, gvk);
    if c.Some? then SpecSchemaOrNone(apiGen, c.value) else None
  }

  /** The basic fallback is chosen exactly when the action or the
      group/version/kind is missing, the action is not a valid Kubernetes
      action (`watchlist` among them), or no kind schema is found; the
      "Unhandled k8s action" throw is never reached. */
  lemma ReturnTypeChoice(apiGen: ApiGen, spec: Document, def: OperationDef)
    requires ReturnTypeOf(apiGen, spec, def).Success?
    ensures var r := ReturnTypeOf(apiGen, spec, def).value;
            r.BasicType? <==> !HasK8sMetadata(def.operation) || (spec.schemas.Some? && KindSchemaOf(apiGen, spec, def.operation.gvk.value).None?)
    ensures def.operation.action == Some("watchlist") ==> ReturnTypeOf(apiGen, spec, def).value.BasicType?
  {
  }

  lemma ReturnTypeNeverUnhandled(apiGen: ApiGen, spec: Document, def: OperationDef)
    ensures ReturnTypeOf(apiGen, spec, def).Failure? ==>
      ReturnTypeOf(apiGen, spec, def).error in {NoReturnSchema, NoSchemasInSpec} || ReturnTypeOf(apiGen, spec, def).error.TypeError?
  {
  }

  /** The common-library description: the alias name derived from the endpoint
      name, the capitalized kind, the kind's group, and the library type the
      action maps to. */
  lemma CommonLibFields(apiGen: ApiGen, spec: Document, def: OperationDef)
    requires ReturnTypeOf(apiGen, spec, def).Success? && ReturnTypeOf(apiGen, spec, def).value.CommonLibType?
    ensures var r := ReturnTypeOf(apiGen, spec, def).value;
            var name := EndpointName(def, apiGen).value;
            var gvk := def.operation.gvk.value;
            && HasK8sMetadata(def.operation)
            && |name| > 0 && |gvk.kind| > 0
            && r.typeAliasName == Capitalize(name) + "ApiResponse"
            && r.kindTypeName == Capitalize(gvk.kind)
            && r.k8sGroup == gvk.group
            && Success(r.libTypeName) == LibTypeFor(def.operation.action.value)
            && Some(r.kindSchema) == KindSchemaOf(apiGen, spec, gvk)
  {
  }
}
