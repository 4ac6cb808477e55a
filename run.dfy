/** The generator scripts: run.ts (extraction, the endpoint loop, the type
    registration loop and the emitted statement list) and src/run.ts (the
    loop over `prepareEndpoint`, which is as far as that script gets). */
module Run {
  import opened Wrappers
  import opened Json
  import opened OpenApi
  import opened Text
  import opened TsUtils
  import Preprocess
  import opened SchemaLookup
  import opened GenerateEndpoint
  import PrepareEndpoints
  import opened Registry
  import PathTemplate

  // ---------------------------------------------------------------------------
  // Operation extraction of run.ts:77-108.

  /** The entry's key is one of `VALID_METHODS`. */
  predicate IsMethodEntry(e: Entry) {
    e.key in PrepareEndpoints.ValidMethods
  }

  /** The `map` callback of run.ts:85-105: a string entry throws; for any other
      value `"parameters" in operation` is evaluated, which throws on null and
      on numbers and booleans; the operation parameters are resolved (`[]`
      when absent or null) and replace the operation's own list. */
  function ExtractEntry(apiGen: ApiGen, path: string, e: Entry, pathParameters: Option<seq<Parameter>>)
    : (r: Result<OperationDef, Error>)
    ensures e.value.TextEntry? ==> r == Failure(OperationNotAnObject)
    ensures r.Failure? <==> e.value.TextEntry? || e.value.NullEntry? || e.value.ScalarEntry?
    ensures r.Success? ==>
      && r.value.httpMethod == e.key && r.value.path == path && r.value.pathParameters == pathParameters
      && r.value.operation.parameters.Some?
      && forall p :: p in r.value.operation.parameters.value ==> p.InlineParam?
    ensures e.value.OperationObject? ==>
      var op := e.value.op;
      r == Success(OperationDef(e.key, path,
        op.(parameters := Some(if op.parameters.Some? then AsRefs(ResolveParams(apiGen, op.parameters.value)) else [])),
        pathParameters))
    ensures e.value.ArrayEntry? ==>
      r == Success(OperationDef(e.key, path, Operation(None, None, None, Some([]), false), pathParameters))
  {
    match e.value
    case TextEntry(_) => Failure(OperationNotAnObject)
    case NullEntry => Failure(TypeError("cannot use 'in' operator to search for 'parameters' in null"))
    case ScalarEntry(_) => Failure(TypeError("cannot use 'in' operator to search for 'parameters' in a primitive"))
    case ArrayEntry(_) => Success(OperationDef(e.key, path, Operation(None, None, None, Some([]), false), pathParameters))
    case OperationObject(op) =>
      var operationParams := if op.parameters.Some? then AsRefs(ResolveParams(apiGen, op.parameters.value)) else [];
      Success(OperationDef(e.key, path, op.(parameters := Some(operationParams)), pathParameters))
  }

  /** The `map` over the method entries of one path item, in entry order,
      the first failing one throwing. */
  function ExtractAll(apiGen: ApiGen, path: string, kept: seq<Entry>, pathParameters: Option<seq<Parameter>>)
    : (r: Result<seq<OperationDef>, Error>)
    ensures r.Success? <==> forall i :: 0 <= i < |kept| ==> ExtractEntry(apiGen, path, kept[i], pathParameters).Success?
    ensures r.Success? ==>
      && |r.value| == |kept|
      && forall i :: 0 <= i < |kept| ==> ExtractEntry(apiGen, path, kept[i], pathParameters) == Success(r.value[i])
  {
    if |kept| == 0 then Success([])
    else
      var d := ExtractEntry(apiGen, path, kept[0], pathParameters);
      var rest := ExtractAll(apiGen, path, kept[1..], pathParameters);
      assert forall i :: 1 <= i < |kept| ==> kept[i] == kept[1..][i - 1];
      if d.Failure? then Failure(d.error)
      else if rest.Failure? then rest
      else Success([d.value] + rest.value)
  }

  /** The `filter` to method keys, then the `map`. */
  function ExtractEntries(apiGen: ApiGen, path: string, entries: seq<Entry>, pathParameters: Option<seq<Parameter>>)
    : Result<seq<OperationDef>, Error>
  {
    ExtractAll(apiGen, path, Keep(entries, IsMethodEntry), pathParameters)
  }

  /** The operations of one path entry: none for a null path item, whose
      shared `parameters` are resolved once for all of its operations. */
  function PathOperations(apiGen: ApiGen, pe: PathEntry): Result<seq<OperationDef>, Error> {
    if pe.item.None? then Success([])
    else ExtractEntries(apiGen, pe.path, pe.item.value.entries, PrepareEndpoints.PathParameters(apiGen, pe.item.value))
  }

  /** `flatMap` over `spec.paths`. */
  function ExtractOperations(apiGen: ApiGen, paths: seq<PathEntry>): (r: Result<seq<OperationDef>, Error>)
    ensures var noPaths: seq<PathEntry> := []; paths == noPaths ==> r == Success([])
  {
    if |paths| == 0 then Success([])
    else
      var first :- PathOperations(apiGen, paths[0]);
      var rest :- ExtractOperations(apiGen, paths[1..]);
      Success(first + rest)
  }

  /** Path order; the entry order within a path is that of `ExtractAll`. */
  lemma {:induction false} ExtractOperationsAppend(apiGen: ApiGen, a: seq<PathEntry>, b: seq<PathEntry>)
    requires ExtractOperations(apiGen, a).Success? && ExtractOperations(apiGen, b).Success?
    ensures ExtractOperations(apiGen, a + b) == Success(ExtractOperations(apiGen, a).value + ExtractOperations(apiGen, b).value)
  {
    var rb := ExtractOperations(apiGen, b).value;
    if |a| == 0 {
      assert a + b == b;
      assert ExtractOperations(apiGen, a).value + rb == rb;
    } else {
      assert (a + b)[0] == a[0];
      assert (a + b)[1..] == a[1..] + b;
      var first := PathOperations(apiGen, a[0]).value;
      var ra := ExtractOperations(apiGen, a[1..]).value;
      assert ExtractOperations(apiGen, a).value == first + ra;
      ExtractOperationsAppend(apiGen, a[1..], b);
      assert ExtractOperations(apiGen, a[1..] + b) == Success(ra + rb);
      assert ExtractOperations(apiGen, a + b) == Success(first + (ra + rb));
      assert first + (ra + rb) == (first + ra) + rb;
    }
  }

  /** Every method entry of every non-null path item yields its definition. */
  lemma {:induction false} ExtractOperationsComplete(apiGen: ApiGen, paths: seq<PathEntry>, k: nat, e: Entry)
    requires ExtractOperations(apiGen, paths).Success?
    requires k < |paths| && paths[k].item.Some? && e in paths[k].item.value.entries && IsMethodEntry(e)
    ensures var d := ExtractEntry(apiGen, paths[k].path, e, PrepareEndpoints.PathParameters(apiGen, paths[k].item.value));
      d.Success? && d.value in ExtractOperations(apiGen, paths).value
  {
    if k == 0 {
      var pe := paths[0];
      var pps := PrepareEndpoints.PathParameters(apiGen, pe.item.value);
      var kept := Keep(pe.item.value.entries, IsMethodEntry);
      var r := ExtractEntries(apiGen, pe.path, pe.item.value.entries, pps).value;
      var i :| 0 <= i < |kept| && kept[i] == e;
      assert r[i] in r;
    } else {
      assert paths[1..][k - 1] == paths[k];
      ExtractOperationsComplete(apiGen, paths[1..], k - 1, e);
    }
  }

  /** `d` comes from a method entry of path entry `pe`, with its own parameters
      resolved and the path's shared ones attached: it is that entry's
      `ExtractEntry` result. */
  predicate ExtractedFrom(apiGen: ApiGen, d: OperationDef, pe: PathEntry) {
    && pe.item.Some? && d.path == pe.path && d.httpMethod in PrepareEndpoints.ValidMethods
    && d.pathParameters == PrepareEndpoints.PathParameters(apiGen, pe.item.value)
    && d.operation.parameters.Some?
    && exists e :: e in pe.item.value.entries && IsMethodEntry(e)
         && ExtractEntry(apiGen, pe.path, e, PrepareEndpoints.PathParameters(apiGen, pe.item.value)) == Success(d)
  }

  lemma {:induction false} ExtractEntriesSound(apiGen: ApiGen, pe: PathEntry)
    requires pe.item.Some?
    requires ExtractEntries(apiGen, pe.path, pe.item.value.entries, PrepareEndpoints.PathParameters(apiGen, pe.item.value)).Success?
    ensures var r := ExtractEntries(apiGen, pe.path, pe.item.value.entries, PrepareEndpoints.PathParameters(apiGen, pe.item.value));
      forall d :: d in r.value ==> ExtractedFrom(apiGen, d, pe)
  {
    var pps := PrepareEndpoints.PathParameters(apiGen, pe.item.value);
    var r := ExtractEntries(apiGen, pe.path, pe.item.value.entries, pps).value;
    var kept := Keep(pe.item.value.entries, IsMethodEntry);
    forall d | d in r ensures ExtractedFrom(apiGen, d, pe) {
      var i :| 0 <= i < |r| && r[i] == d;
      assert kept[i] in kept;
      assert kept[i] in pe.item.value.entries && IsMethodEntry(kept[i]);
      assert ExtractEntry(apiGen, pe.path, kept[i], pps) == Success(d);
    }
  }

  /** Every extracted operation carries resolved parameters (`[]` when absent)
      and the resolved shared parameters of the path it came from. */
  lemma {:induction false} ExtractOperationsSound(apiGen: ApiGen, paths: seq<PathEntry>)
    requires ExtractOperations(apiGen, paths).Success?
    ensures forall d :: d in ExtractOperations(apiGen, paths).value ==>
      exists k :: 0 <= k < |paths| && ExtractedFrom(apiGen, d, paths[k])
  {
    if |paths| > 0 {
      ExtractOperationsSound(apiGen, paths[1..]);
      var first := PathOperations(apiGen, paths[0]).value;
      if paths[0].item.Some? {
        ExtractEntriesSound(apiGen, paths[0]);
      }
      var rest := ExtractOperations(apiGen, paths[1..]).value;
      assert ExtractOperations(apiGen, paths).value == first + rest;
      forall d | d in ExtractOperations(apiGen, paths).value
        ensures exists k :: 0 <= k < |paths| && ExtractedFrom(apiGen, d, paths[k])
      {
        if d in first {
          assert ExtractedFrom(apiGen, d, paths[0]);
        } else {
          assert d in rest;
          var k :| 0 <= k < |paths[1..]| && ExtractedFrom(apiGen, d, paths[1..][k]);
          assert paths[k + 1] == paths[1..][k];
        }
      }
    }
  }

  /** A string under a method key stops the run with "expected operation to
      be an object", whatever follows it. */
  lemma StringOperationRejected(apiGen: ApiGen, path: string, text: string, later: seq<Entry>)
    ensures ExtractEntries(apiGen, path, [Entry("get", TextEntry(text))] + later, None) == Failure(OperationNotAnObject)
  {
    var entries := [Entry("get", TextEntry(text))] + later;
    assert entries[0] == Entry("get", TextEntry(text)) && entries[1..] == later;
    assert IsMethodEntry(entries[0]);
    var kept := Keep(entries, IsMethodEntry);
    assert kept == [entries[0]] + Keep(later, IsMethodEntry);
  }

  // ---------------------------------------------------------------------------
  // The endpoint loop of run.ts:114-122.

  /** The results of a loop that stops at the first throw and keeps the
      defined values, in order. */
  function Collect<T>(rs: seq<Result<Option<T>, Error>>): (r: Result<seq<T>, Error>)
    ensures r.Success? <==> forall i :: 0 <= i < |rs| ==> rs[i].Success?
  {
    if |rs| == 0 then Success([])
    else
      var prev := Collect(rs[..|rs| - 1]);
      var last := rs[|rs| - 1];
      assert forall i :: 0 <= i < |rs| - 1 ==> rs[..|rs| - 1][i] == rs[i];
      if prev.Failure? then prev
      else if last.Failure? then Failure(last.error)
      else if last.value.Some? then Success(prev.value + [last.value.value])
      else Success(prev.value)
  }

  /** The defined values of `rs`, front to back: one per `Success(Some(_))`
      step, none for any other. */
  function Defined<T>(rs: seq<Result<Option<T>, Error>>): seq<T> {
    if |rs| == 0 then []
    else (if rs[0].Success? && rs[0].value.Some? then [rs[0].value.value] else []) + Defined(rs[1..])
  }

  /** `Defined` read from the back, the way `Collect` recurses. */
  lemma {:induction false} DefinedSnoc<T>(rs: seq<Result<Option<T>, Error>>, x: Result<Option<T>, Error>)
    ensures Defined(rs + [x]) == Defined(rs) + (if x.Success? && x.value.Some? then [x.value.value] else [])
  {
    if |rs| == 0 {
      assert rs + [x] == [x];
      assert [x][1..] == [];
    } else {
      assert (rs + [x])[0] == rs[0];
      assert (rs + [x])[1..] == rs[1..] + [x];
      DefinedSnoc(rs[1..], x);
      var h: seq<T> := if rs[0].Success? && rs[0].value.Some? then [rs[0].value.value] else [];
      var t: seq<T> := if x.Success? && x.value.Some? then [x.value.value] else [];
      PathTemplate.AppendAssoc(h, Defined(rs[1..]), t);
    }
  }

  /** The loop keeps the defined values in step order, each once. */
  lemma {:induction false} CollectInOrder<T>(rs: seq<Result<Option<T>, Error>>)
    requires Collect(rs).Success?
    ensures Collect(rs).value == Defined(rs)
  {
    if |rs| > 0 {
      var init := rs[..|rs| - 1];
      var last := rs[|rs| - 1];
      CollectInOrder(init);
      assert rs == init + [last];
      DefinedSnoc(init, last);
    }
  }

  /** A collected value is a defined result, and every defined result is collected. */
  lemma {:induction false} CollectMembers<T>(rs: seq<Result<Option<T>, Error>>)
    requires Collect(rs).Success?
    ensures |Collect(rs).value| <= |rs|
    ensures forall x :: x in Collect(rs).value <==> Success(Some(x)) in rs
  {
    if |rs| > 0 {
      var init := rs[..|rs| - 1];
      CollectMembers(init);
      var last := rs[|rs| - 1];
      assert rs == init + [last];
      assert Collect(rs).value == Collect(init).value + (if last.value.Some? then [last.value.value] else []);
    }
  }

  /** Once a prefix throws, the whole loop throws the same error. */
  lemma {:induction false} CollectFailurePrefix<T>(rs: seq<Result<Option<T>, Error>>, n: nat)
    requires n <= |rs| && Collect(rs[..n]).Failure?
    ensures Collect(rs) == Collect(rs[..n])
    decreases |rs| - n
  {
    if n < |rs| {
      var init := rs[..|rs| - 1];
      assert init[..n] == rs[..n];
      CollectFailurePrefix(init, n);
    } else {
      assert rs[..n] == rs;
    }
  }

  /** One more result on a successful prefix: a value is appended, `undefined`
      is dropped. */
  lemma CollectStep<T>(rs: seq<Result<Option<T>, Error>>, i: nat, xs: seq<T>)
    requires i < |rs| && Collect(rs[..i]) == Success(xs) && rs[i].Success?
    ensures Collect(rs[..i + 1]) == Success(if rs[i].value.Some? then xs + [rs[i].value.value] else xs)
  {
    assert rs[..i + 1][..i] == rs[..i];
  }

  lemma WholePrefix<T>(rs: seq<T>)
    ensures rs[..|rs|] == rs
  {
  }

  /** `generateEndpoint` of every operation. */
  function EndpointResults(apiGen: ApiGen, ops: seq<OperationDef>): (r: seq<Result<Option<EndpointDef>, Error>>)
    ensures |r| == |ops| && forall i :: 0 <= i < |ops| ==> r[i] == Endpoint(ops[i], apiGen)
  {
    seq(|ops|, i requires 0 <= i < |ops| => Endpoint(ops[i], apiGen))
  }

  /** The endpoints of the operations in order, the `undefined` results
      dropped; the first throw stops the loop. */
  function CollectedEndpoints(apiGen: ApiGen, ops: seq<OperationDef>): (r: Result<seq<EndpointDef>, Error>)
    ensures r.Success? <==> forall i :: 0 <= i < |ops| ==> Endpoint(ops[i], apiGen).Success?
  {
    Collect(EndpointResults(apiGen, ops))
  }

  /** Some operation's endpoint is `e`. */
  predicate GeneratedBy(apiGen: ApiGen, ops: seq<OperationDef>, e: EndpointDef) {
    exists i :: 0 <= i < |ops| && Endpoint(ops[i], apiGen) == Success(Some(e))
  }

  /** The collected endpoints are exactly the generated ones, in operation
      order, one per operation whose `generateEndpoint` is not `undefined`. */
  lemma CollectedEndpointsMembers(apiGen: ApiGen, ops: seq<OperationDef>)
    requires CollectedEndpoints(apiGen, ops).Success?
    ensures CollectedEndpoints(apiGen, ops).value == Defined(EndpointResults(apiGen, ops))
    ensures |CollectedEndpoints(apiGen, ops).value| <= |ops|
    ensures forall e :: e in CollectedEndpoints(apiGen, ops).value <==> GeneratedBy(apiGen, ops, e)
  {
    var rs := EndpointResults(apiGen, ops);
    CollectInOrder(rs);
    CollectMembers(rs);
    forall e ensures Success(Some(e)) in rs <==> GeneratedBy(apiGen, ops, e) {
      if Success(Some(e)) in rs {
        var i :| 0 <= i < |rs| && rs[i] == Success(Some(e));
      }
    }
  }

  /** run.ts:116-122. */
  method CollectEndpoints(apiGen: ApiGen, ops: seq<OperationDef>) returns (r: Result<seq<EndpointDef>, Error>)
    ensures r == CollectedEndpoints(apiGen, ops)
  {
    var endpoints: seq<EndpointDef> := [];
    var i := 0;
    while i < |ops|
      invariant 0 <= i <= |ops|
      invariant Collect(EndpointResults(apiGen, ops)[..i]) == Success(endpoints)
    {
      var rs := EndpointResults(apiGen, ops);
      var endpointDef := GenerateEndpoint.GenerateEndpoint(ops[i], apiGen);
      if endpointDef.Failure? {
        assert rs[..i + 1][..i] == rs[..i];
        CollectFailurePrefix(rs, i + 1);
        return Failure(endpointDef.error);
      }
      CollectStep(rs, i, endpoints);
      if endpointDef.value.Some? {
        endpoints := endpoints + [endpointDef.value.value];
      }
      i := i + 1;
    }
    WholePrefix(EndpointResults(apiGen, ops));
    return Success(endpoints);
  }

  // ---------------------------------------------------------------------------
  // The type registration loop of run.ts:137-231 (src/run.ts:106-200).

  /** The property signature of one parameter: its name as an identifier when
      valid, otherwise computed; optional exactly when not required; its
      schema's type in "writeOnly" mode. */
  function ParamSignature(apiGen: ApiGen, p: Parameter): (s: PropertySignature)
    ensures s.name == IdentName(p.name) <==> apiGen.isValidIdentifier(p.name)
    ensures s.name == ComputedName(p.name) <==> !apiGen.isValidIdentifier(p.name)
    ensures s.optional <==> !p.required
    ensures s.typ == SchemaType(p.schema, None, Some("writeOnly"))
  {
    var name := if apiGen.isValidIdentifier(p.name) then IdentName(p.name) else ComputedName(p.name);
    PropertySignature(name, !p.required, SchemaType(p.schema, None, Some("writeOnly")))
  }

  /** The loop that fills `paramTypes`: one signature per parameter, in order. */
  method BuildParamTypes(apiGen: ApiGen, paramSchemas: seq<Parameter>) returns (paramTypes: seq<PropertySignature>)
    ensures |paramTypes| == |paramSchemas|
    ensures forall i :: 0 <= i < |paramSchemas| ==> paramTypes[i] == ParamSignature(apiGen, paramSchemas[i])
  {
    paramTypes := [];
    var i := 0;
    while i < |paramSchemas|
      invariant 0 <= i <= |paramSchemas| && |paramTypes| == i
      invariant forall k :: 0 <= k < i ==> paramTypes[k] == ParamSignature(apiGen, paramSchemas[k])
    {
      var param := paramSchemas[i];
      var paramType := SchemaType(param.schema, None, Some("writeOnly"));
      var name := if apiGen.isValidIdentifier(param.name) then IdentName(param.name) else ComputedName(param.name);
      paramTypes := paramTypes + [PropertySignature(name, !param.required, paramType)];
      i := i + 1;
    }
  }

  function ParamSignatures(apiGen: ApiGen, ps: seq<Parameter>): seq<PropertySignature> {
    seq(|ps|, i requires 0 <= i < |ps| => ParamSignature(apiGen, ps[i]))
  }

  /** `export type <paramsType.name> = { ... }`. */
  function ParamsDecl(apiGen: ApiGen, ps: ParamsSummary): Decl {
    TypeAlias(ps.name, None, TypeLiteral(ParamSignatures(apiGen, ps.paramSchemas)))
  }

  /** `spec.components?.schemas ?? {}`. */
  function SchemasOrEmpty(spec: Document): seq<NamedSchema> {
    if spec.schemas.Some? then spec.schemas.value else []
  }

  /** The response alias registered for an endpoint, if its action has one;
      capitalising an empty endpoint name throws. */
  function ResponseDecl(e: EndpointDef, kindName: string): (r: Result<Option<Decl>, Error>)
    ensures r.Success? && r.value.None? <==> LibForAction(e.returnType.action).None?
    ensures r.Failure? <==> LibForAction(e.returnType.action).Some? && e.endpointName == ""
    ensures r.Success? && r.value.Some? ==>
      r.value.value == TypeAlias(Capitalize(e.endpointName) + "Response", None,
                                 ResponseTypeNode(e.returnType.action, kindName, e.returnType.gvk.group).value)
  {
    var returnType := ResponseTypeNode(e.returnType.action, kindName, e.returnType.gvk.group);
    if returnType.None? then Success(None)
    else if e.endpointName == "" then Failure(TypeError("cannot read properties of undefined (reading 'toUpperCase')"))
    else Success(Some(TypeAlias(Capitalize(e.endpointName) + "Response", None, returnType.value)))
  }

  /** The import set after the response type of `action` is built. */
  function ImportsFor(imports: seq<LibName>, action: string): (r: seq<LibName>)
    ensures forall lib :: lib in r <==> lib in imports || LibForAction(action) == Some(lib)
  {
    if LibForAction(action).Some? then UseImport(imports, LibForAction(action).value) else imports
  }

  /** The Kind half of the loop body: the kind schema must exist and its
      `spec` must have `allOf[0]`; then the Kind is registered. */
  function KindStep(kinds: seq<KindEntry>, apiGen: ApiGen, schemas: seq<NamedSchema>, gvk: Gvk)
    : (r: Result<(string, seq<KindEntry>), Error>)
    ensures FirstSchemaMatching(apiGen, schemas, gvk).None? ==> r == Failure(SpecSchemaNotFound)
    ensures r.Success? ==>
      && FirstSchemaMatching(apiGen, schemas, gvk).Some?
      && SpecSchemaOrFail(apiGen, FirstSchemaMatching(apiGen, schemas, gvk).value).Success?
      && r == CreateAndRegisterKind(kinds, gvk, SpecSchemaOrFail(apiGen, FirstSchemaMatching(apiGen, schemas, gvk).value).value)
  {
    var kindSchema := FirstSchemaMatching(apiGen, schemas, gvk);
    if kindSchema.None? then Failure(SpecSchemaNotFound)
    else
      var specSchema :- SpecSchemaOrFail(apiGen, kindSchema.value);
      CreateAndRegisterKind(kinds, gvk, specSchema)
  }

  /** The name-table half: the response alias (if any), then the params alias. */
  function InterfacesStep(interfaces: seq<Decl>, apiGen: ApiGen, e: EndpointDef, kindName: string)
    : Result<seq<Decl>, Error>
  {
    var response :- ResponseDecl(e, kindName);
    var interfaces' :- if response.None? then Success(interfaces) else RegisterIn(interfaces, response.value);
    RegisterIn(interfaces', ParamsDecl(apiGen, e.paramsType))
  }

  /** What one pass of the loop body does to the tables, or the error it throws. */
  function EndpointTypes(t: Tables, apiGen: ApiGen, schemas: seq<NamedSchema>, e: EndpointDef): Result<Tables, Error> {
    var kind :- KindStep(t.kinds, apiGen, schemas, e.returnType.gvk);
    var interfaces :- InterfacesStep(t.interfaces, apiGen, e, kind.0);
    Success(Tables(kind.1, interfaces, ImportsFor(t.imports, e.returnType.action)))
  }

  lemma KindStepEffect(kinds: seq<KindEntry>, apiGen: ApiGen, schemas: seq<NamedSchema>, gvk: Gvk)
    requires KindStep(kinds, apiGen, schemas, gvk).Success?
    ensures var k := KindStep(kinds, apiGen, schemas, gvk).value.1;
      && (Distinct(Gvks(kinds)) ==> Distinct(Gvks(k)))
      && |k| <= |kinds| + 1 && k[..|kinds|] == kinds
  {
    var specSchema := SpecSchemaOrFail(apiGen, FirstSchemaMatching(apiGen, schemas, gvk).value).value;
    if Distinct(Gvks(kinds)) {
      RegisterGkvKeepsDistinct(kinds, gvk, KindDecl(gvk, specSchema));
    }
    var k := KindStep(kinds, apiGen, schemas, gvk).value.1;
    assert k == RegisterGkvIn(kinds, gvk, KindDecl(gvk, specSchema));
    if gvk in Gvks(kinds) {
      assert k == kinds;
    }
  }

  /** The name table gains the response alias (when there is one), then the
      params alias, in that order, and the declarations already registered
      stay as they were. */
  lemma InterfacesStepEffect(interfaces: seq<Decl>, apiGen: ApiGen, e: EndpointDef, kindName: string)
    requires InterfacesStep(interfaces, apiGen, e, kindName).Success?
    ensures var r := InterfacesStep(interfaces, apiGen, e, kindName).value;
      var response := ResponseDecl(e, kindName).value;
      && (Distinct(Names(interfaces)) ==> Distinct(Names(r)))
      && Names(r) == Names(interfaces) + (if response.Some? then [response.value.name] else []) + [e.paramsType.name]
      && Lookup(r, e.paramsType.name) == Some(ParamsDecl(apiGen, e.paramsType))
      && r == interfaces + (if response.Some? then [response.value] else []) + [ParamsDecl(apiGen, e.paramsType)]
  {
    var response := ResponseDecl(e, kindName).value;
    var params := ParamsDecl(apiGen, e.paramsType);
    if response.None? {
      assert InterfacesStep(interfaces, apiGen, e, kindName) == RegisterIn(interfaces, params);
      if Distinct(Names(interfaces)) {
        RegisterInKeepsDistinct(interfaces, params);
      }
      assert Names(interfaces) + [] == Names(interfaces);
    } else {
      var withResponse := RegisterIn(interfaces, response.value).value;
      assert InterfacesStep(interfaces, apiGen, e, kindName) == RegisterIn(withResponse, params);
      if Distinct(Names(interfaces)) {
        RegisterInKeepsDistinct(interfaces, response.value);
        RegisterInKeepsDistinct(withResponse, params);
      }
    }
  }

  /** One pass keeps every table duplicate-free. */
  lemma EndpointTypesKeepsValid(t: Tables, apiGen: ApiGen, schemas: seq<NamedSchema>, e: EndpointDef)
    requires Valid(t) && EndpointTypes(t, apiGen, schemas, e).Success?
    ensures Valid(EndpointTypes(t, apiGen, schemas, e).value)
  {
    var kind := KindStep(t.kinds, apiGen, schemas, e.returnType.gvk).value;
    KindStepEffect(t.kinds, apiGen, schemas, e.returnType.gvk);
    InterfacesStepEffect(t.interfaces, apiGen, e, kind.0);
  }

  /** One pass adds the Kind (if new), then the response alias exactly when
      the action has a wrapper, then the params alias, and nothing else; the
      import set gains the wrapper's name. */
  lemma EndpointTypesEffect(t: Tables, apiGen: ApiGen, schemas: seq<NamedSchema>, e: EndpointDef)
    requires EndpointTypes(t, apiGen, schemas, e).Success?
    ensures var r := EndpointTypes(t, apiGen, schemas, e).value;
      var names := Names(r.interfaces);
      && |r.kinds| <= |t.kinds| + 1 && r.kinds[..|t.kinds|] == t.kinds
      && names == Names(t.interfaces)
                  + (if LibForAction(e.returnType.action).Some? then [Capitalize(e.endpointName) + "Response"] else [])
                  + [e.paramsType.name]
      && Lookup(r.interfaces, e.paramsType.name) == Some(ParamsDecl(apiGen, e.paramsType))
      && r.imports == ImportsFor(t.imports, e.returnType.action)
      && r.kinds == KindStep(t.kinds, apiGen, schemas, e.returnType.gvk).value.1
      && r.interfaces == t.interfaces
           + (if LibForAction(e.returnType.action).Some?
              then [TypeAlias(Capitalize(e.endpointName) + "Response", None,
                              ResponseTypeNode(e.returnType.action, Capitalize(e.returnType.gvk.kind), e.returnType.gvk.group).value)]
              else [])
           + [ParamsDecl(apiGen, e.paramsType)]
  {
    var kind := KindStep(t.kinds, apiGen, schemas, e.returnType.gvk).value;
    KindStepEffect(t.kinds, apiGen, schemas, e.returnType.gvk);
    InterfacesStepEffect(t.interfaces, apiGen, e, kind.0);
    var response := ResponseDecl(e, kind.0).value;
    if response.Some? {
      assert response.value.name == Capitalize(e.endpointName) + "Response";
    }
  }

  /** A params name that is already taken is fatal. */
  lemma DuplicateParamsNameFatal(t: Tables, apiGen: ApiGen, schemas: seq<NamedSchema>, e: EndpointDef)
    requires e.paramsType.name in Names(t.interfaces)
    ensures EndpointTypes(t, apiGen, schemas, e).Failure?
  {
    var kind := KindStep(t.kinds, apiGen, schemas, e.returnType.gvk);
    if kind.Success? {
      var response := ResponseDecl(e, kind.value.0);
      if response.Success? && response.value.Some? && RegisterIn(t.interfaces, response.value.value).Success? {
        assert Names(RegisterIn(t.interfaces, response.value.value).value) == Names(t.interfaces) + [response.value.value.name];
      }
    }
  }

  /** The loop over all endpoints, from the given tables. */
  function RegisterAll(t: Tables, apiGen: ApiGen, schemas: seq<NamedSchema>, es: seq<EndpointDef>): Result<Tables, Error>
    decreases |es|
  {
    if |es| == 0 then Success(t)
    else
      var step := EndpointTypes(t, apiGen, schemas, es[0]);
      if step.Failure? then Failure(step.error)
      else RegisterAll(step.value, apiGen, schemas, es[1..])
  }

  lemma {:induction false} RegisterAllKeepsValid(t: Tables, apiGen: ApiGen, schemas: seq<NamedSchema>, es: seq<EndpointDef>)
    requires Valid(t) && RegisterAll(t, apiGen, schemas, es).Success?
    ensures Valid(RegisterAll(t, apiGen, schemas, es).value)
    decreases |es|
  {
    if |es| > 0 {
      EndpointTypesKeepsValid(t, apiGen, schemas, es[0]);
      RegisterAllKeepsValid(EndpointTypes(t, apiGen, schemas, es[0]).value, apiGen, schemas, es[1..]);
    }
  }

  /** Some endpoint's action maps to `lib`. */
  predicate WrapperUsed(es: seq<EndpointDef>, lib: LibName) {
    exists i :: 0 <= i < |es| && LibForAction(es[i].returnType.action) == Some(lib)
  }

  /** The import lists exactly the library names the endpoints used (on top
      of those already recorded). */
  lemma {:induction false} RegisterAllImports(t: Tables, apiGen: ApiGen, schemas: seq<NamedSchema>, es: seq<EndpointDef>)
    requires RegisterAll(t, apiGen, schemas, es).Success?
    ensures forall lib :: lib in RegisterAll(t, apiGen, schemas, es).value.imports <==> lib in t.imports || WrapperUsed(es, lib)
    decreases |es|
  {
    if |es| > 0 {
      var t' := EndpointTypes(t, apiGen, schemas, es[0]).value;
      RegisterAllImports(t', apiGen, schemas, es[1..]);
      forall lib ensures WrapperUsed(es, lib) <==> LibForAction(es[0].returnType.action) == Some(lib) || WrapperUsed(es[1..], lib) {
        WrapperUsedCons(es, lib);
      }
    }
  }

  lemma WrapperUsedCons(es: seq<EndpointDef>, lib: LibName)
    requires |es| > 0
    ensures WrapperUsed(es, lib) <==> LibForAction(es[0].returnType.action) == Some(lib) || WrapperUsed(es[1..], lib)
  {
    if WrapperUsed(es, lib) {
      var i :| 0 <= i < |es| && LibForAction(es[i].returnType.action) == Some(lib);
      if i > 0 { assert es[1..][i - 1] == es[i]; }
    }
    if WrapperUsed(es[1..], lib) {
      var i :| 0 <= i < |es[1..]| && LibForAction(es[1..][i].returnType.action) == Some(lib);
      assert es[i + 1] == es[1..][i];
    }
  }

  /** The lookups and the Kind registration of the loop body. */
  method ProcessKind(ctx: CodegenContext, apiGen: ApiGen, schemas: seq<NamedSchema>, gvk: Gvk) returns (r: Result<string, Error>)
    modifies ctx
    ensures KindStep(old(ctx.kinds), apiGen, schemas, gvk).Failure? ==>
      r == Failure(KindStep(old(ctx.kinds), apiGen, schemas, gvk).error)
    ensures KindStep(old(ctx.kinds), apiGen, schemas, gvk).Success? ==>
      && r == Success(KindStep(old(ctx.kinds), apiGen, schemas, gvk).value.0)
      && ctx.State() == old(ctx.State()).(kinds := KindStep(old(ctx.kinds), apiGen, schemas, gvk).value.1)
  {
    var kindSchema := SearchSchemas(apiGen, schemas, gvk);
    if kindSchema.None? {
      return Failure(SpecSchemaNotFound);
    }
    var specSchema := SpecSchemaOrFail(apiGen, kindSchema.value);
    if specSchema.Failure? {
      return Failure(specSchema.error);
    }
    r := ctx.CreateAndRegisterKindInterface(gvk, specSchema.value);
  }

  /** The `if` chain over the action that builds the response type. */
  method BuildResponseType(ctx: CodegenContext, action: string, kindTsName: string, group: string)
    returns (returnType: Option<TypeNode>)
    modifies ctx
    ensures returnType == ResponseTypeNode(action, kindTsName, group)
    ensures ctx.State() == old(ctx.State()).(imports := ImportsFor(old(ctx.imports), action))
  {
    returnType := None;
    if action == "get" || action == "post" || action == "put" || action == "patch" {
      var lib := ctx.UseCommonLibImport(Resource);
      returnType := Some(LibTypeRef(lib, kindTsName, group));
    } else if action == "list" {
      var lib := ctx.UseCommonLibImport(ResourceList);
      returnType := Some(LibTypeRef(lib, kindTsName, group));
    } else if action == "delete" || action == "deletecollection" {
      var lib := ctx.UseCommonLibImport(MetaStatus);
      returnType := Some(LibTypeName(lib));
    }
  }

  /** The two registrations of the loop body. */
  method ProcessInterfaces(ctx: CodegenContext, apiGen: ApiGen, e: EndpointDef, kindTsName: string, returnType: Option<TypeNode>)
    returns (error: Option<Error>)
    modifies ctx
    requires returnType == ResponseTypeNode(e.returnType.action, kindTsName, e.returnType.gvk.group)
    ensures error.None? <==> InterfacesStep(old(ctx.interfaces), apiGen, e, kindTsName).Success?
    ensures error.None? ==>
      ctx.State() == old(ctx.State()).(interfaces := InterfacesStep(old(ctx.interfaces), apiGen, e, kindTsName).value)
    ensures error.Some? ==> error.value == InterfacesStep(old(ctx.interfaces), apiGen, e, kindTsName).error
  {
    if returnType.Some? {
      if e.endpointName == "" {
        return Some(TypeError("cannot read properties of undefined (reading 'toUpperCase')"));
      }
      var registered := ctx.RegisterInterface(TypeAlias(Capitalize(e.endpointName) + "Response", None, returnType.value));
      if registered.Failure? {
        return Some(registered.error);
      }
    }
    var paramTypes := BuildParamTypes(apiGen, e.paramsType.paramSchemas);
    assert paramTypes == ParamSignatures(apiGen, e.paramsType.paramSchemas);
    var registered := ctx.RegisterInterface(TypeAlias(e.paramsType.name, None, TypeLiteral(paramTypes)));
    if registered.Failure? {
      return Some(registered.error);
    }
    return None;
  }

  /** The loop body, on the shared tables. */
  method ProcessEndpoint(ctx: CodegenContext, apiGen: ApiGen, schemas: seq<NamedSchema>, e: EndpointDef) returns (error: Option<Error>)
    modifies ctx
    ensures error.None? <==> EndpointTypes(old(ctx.State()), apiGen, schemas, e).Success?
    ensures error.None? ==> ctx.State() == EndpointTypes(old(ctx.State()), apiGen, schemas, e).value
    ensures error.Some? ==> error.value == EndpointTypes(old(ctx.State()), apiGen, schemas, e).error
  {
    var kindTsName := ProcessKind(ctx, apiGen, schemas, e.returnType.gvk);
    if kindTsName.Failure? {
      return Some(kindTsName.error);
    }
    var returnType := BuildResponseType(ctx, e.returnType.action, kindTsName.value, e.returnType.gvk.group);
    error := ProcessInterfaces(ctx, apiGen, e, kindTsName.value, returnType);
  }

  /** run.ts:137-231: every endpoint in order, stopping at the first throw. */
  method RegisterEndpointTypes(ctx: CodegenContext, apiGen: ApiGen, schemas: seq<NamedSchema>, es: seq<EndpointDef>)
    returns (error: Option<Error>)
    modifies ctx
    ensures error.None? <==> RegisterAll(old(ctx.State()), apiGen, schemas, es).Success?
    ensures error.None? ==> ctx.State() == RegisterAll(old(ctx.State()), apiGen, schemas, es).value
    ensures error.Some? ==> error.value == RegisterAll(old(ctx.State()), apiGen, schemas, es).error
  {
    var i := 0;
    while i < |es|
      invariant 0 <= i <= |es|
      invariant RegisterAll(old(ctx.State()), apiGen, schemas, es) == RegisterAll(ctx.State(), apiGen, schemas, es[i..])
    {
      assert es[i..][0] == es[i] && es[i..][1..] == es[i + 1..];
      error := ProcessEndpoint(ctx, apiGen, schemas, es[i]);
      if error.Some? {
        return;
      }
      i := i + 1;
    }
    assert es[i..] == [];
    return None;
  }

  // ---------------------------------------------------------------------------
  // Emission: run.ts:124-133, 233-271 and 376-404.

  /** The top-level statements of the emitted file. */
  datatype Statement =
    | ImportDecl(names: seq<LibName>, from: string)   // import { type A, ... } from "./commonLib"
    | VarStmt(name: string, init: Expr)               // const name = init
    | DeclStmt(decl: Decl)

  /** `"endpointName": builderCall` for every endpoint, in order. */
  function EndpointProps(es: seq<EndpointDef>): (r: seq<Prop>)
    ensures |r| == |es|
    ensures forall i :: 0 <= i < |es| ==> r[i].key == StringKey(es[i].endpointName) && r[i].value == es[i].builderCall
  {
    seq(|es|, i requires 0 <= i < |es| => Prop(StringKey(es[i].endpointName), es[i].builderCall))
  }

  /** `api.injectEndpoints({ endpoints: (build) => ({ ... }) })`. */
  function InjectedRtkApi(es: seq<EndpointDef>): (e: Expr)
    ensures e.Call? && e.callee == PropAccess(Ident("api"), "injectEndpoints") && |e.args| == 1
    ensures e.args[0] == ObjectLit([Prop(IdentKey("endpoints"), Arrow("build", Paren(ObjectLit(EndpointProps(es)))))])
  {
    var endpoints := Arrow("build", Paren(ObjectLit(EndpointProps(es))));
    assert CreateObject([("endpoints", endpoints)]).props == [Prop(IdentKey("endpoints"), endpoints)];
    Call(PropAccess(Ident("api"), "injectEndpoints"), [], [CreateObject([("endpoints", endpoints)])])
  }

  function KindStatements(kinds: seq<KindEntry>): (r: seq<Statement>)
    ensures |r| == |kinds| && forall i :: 0 <= i < |kinds| ==> r[i] == DeclStmt(kinds[i].decl)
  {
    seq(|kinds|, i requires 0 <= i < |kinds| => DeclStmt(kinds[i].decl))
  }

  function DeclStatements(ds: seq<Decl>): (r: seq<Statement>)
    ensures |r| == |ds| && forall i :: 0 <= i < |ds| ==> r[i] == DeclStmt(ds[i])
  {
    seq(|ds|, i requires 0 <= i < |ds| => DeclStmt(ds[i]))
  }

  /** The statement list of the source file: the common-library import of the
      used names, `injectedRtkApi`, `apiGen.aliases`, the Kind declarations in
      insertion order, then the name table in insertion order. */
  function SourceStatements(t: Tables, es: seq<EndpointDef>, aliases: seq<Decl>): (r: seq<Statement>)
    ensures |r| == 2 + |aliases| + |t.kinds| + |t.interfaces|
    ensures r[0] == ImportDecl(t.imports, "./commonLib")
    ensures r[1] == VarStmt("injectedRtkApi", InjectedRtkApi(es))
    ensures forall i :: 0 <= i < |aliases| ==> r[2 + i] == DeclStmt(aliases[i])
    ensures forall i :: 0 <= i < |t.kinds| ==> r[2 + |aliases| + i] == DeclStmt(t.kinds[i].decl)
    ensures forall i :: 0 <= i < |t.interfaces| ==> r[2 + |aliases| + |t.kinds| + i] == DeclStmt(t.interfaces[i])
  {
    [ImportDecl(t.imports, "./commonLib"), VarStmt("injectedRtkApi", InjectedRtkApi(es))]
      + DeclStatements(aliases) + KindStatements(t.kinds) + DeclStatements(t.interfaces)
  }

  // ---------------------------------------------------------------------------
  // run.ts from the parsed document to the statement list.

  /** run.ts end to end.  The document is cleaned in place, then read through
      `decode`, the typed view that TypeScript's casts assume. */
  function RunPipeline(root: Json, decode: Json -> Document, apiGen: ApiGen, aliases: seq<Decl>)
    : Result<seq<Statement>, Error>
  {
    var cleaned := Preprocess.PreprocessSpec(root);
    if cleaned.Failure? then Failure(cleaned.error)
    else
      var spec := decode(cleaned.value);
      var operations := ExtractOperations(apiGen, spec.paths);
      if operations.Failure? then Failure(operations.error)
      else
        var endpoints := CollectedEndpoints(apiGen, operations.value);
        if endpoints.Failure? then Failure(endpoints.error)
        else
          var tables := RegisterAll(Tables([], [], []), apiGen, SchemasOrEmpty(spec), endpoints.value);
          if tables.Failure? then Failure(tables.error)
          else Success(SourceStatements(tables.value, endpoints.value, aliases))
  }

  /** A successful run emits the import first and no declaration name twice:
      every Kind declaration for a distinct triple, every alias name once, and
      only wrapper names some endpoint used. */
  lemma {:induction false} RunPipelineOutput(root: Json, decode: Json -> Document, apiGen: ApiGen, aliases: seq<Decl>)
    requires RunPipeline(root, decode, apiGen, aliases).Success?
    ensures var spec := decode(Preprocess.PreprocessSpec(root).value);
      var endpoints := CollectedEndpoints(apiGen, ExtractOperations(apiGen, spec.paths).value).value;
      var tables := RegisterAll(Tables([], [], []), apiGen, SchemasOrEmpty(spec), endpoints).value;
      && RunPipeline(root, decode, apiGen, aliases).value == SourceStatements(tables, endpoints, aliases)
      && Valid(tables)
      && forall lib :: lib in tables.imports <==> WrapperUsed(endpoints, lib)
  {
    var spec := decode(Preprocess.PreprocessSpec(root).value);
    var endpoints := CollectedEndpoints(apiGen, ExtractOperations(apiGen, spec.paths).value).value;
    RegisterAllFromEmpty(apiGen, SchemasOrEmpty(spec), endpoints);
  }

  /** Registering from empty tables gives valid tables whose import lists
      exactly the wrappers used. */
  lemma RegisterAllFromEmpty(apiGen: ApiGen, schemas: seq<NamedSchema>, es: seq<EndpointDef>)
    requires RegisterAll(Tables([], [], []), apiGen, schemas, es).Success?
    ensures var tables := RegisterAll(Tables([], [], []), apiGen, schemas, es).value;
      Valid(tables) && forall lib :: lib in tables.imports <==> WrapperUsed(es, lib)
  {
    var empty := Tables([], [], []);
    assert Valid(empty);
    RegisterAllKeepsValid(empty, apiGen, schemas, es);
    RegisterAllImports(empty, apiGen, schemas, es);
  }

  /** run.ts as a script: the same steps, on a document object and a fresh
      set of tables. */
  method RunScript(root: Json, decode: Json -> Document, apiGen: ApiGen, aliases: seq<Decl>)
    returns (r: Result<seq<Statement>, Error>)
    ensures r == RunPipeline(root, decode, apiGen, aliases)
  {
    var spec := new Preprocess.SpecDocument(root);
    var preprocessError := spec.Preprocess();
    if preprocessError.Some? {
      return Failure(preprocessError.value);
    }
    var document := decode(spec.root);
    var operations := ExtractOperations(apiGen, document.paths);
    if operations.Failure? {
      return Failure(operations.error);
    }
    var endpoints := CollectEndpoints(apiGen, operations.value);
    if endpoints.Failure? {
      return Failure(endpoints.error);
    }
    var ctx := new CodegenContext();
    var registerError := RegisterEndpointTypes(ctx, apiGen, SchemasOrEmpty(document), endpoints.value);
    if registerError.Some? {
      return Failure(registerError.value);
    }
    return Success(SourceStatements(ctx.State(), endpoints.value, aliases));
  }

  // ---------------------------------------------------------------------------
  // src/run.ts: the reachable part, up to `process.exit(0)` at line 77.

  /** The results of `getReturnType` for the operations in order (the rest
      of `prepareEndpoint` only prints); the first throw stops the loop. */
  function PreparedReturnTypes(apiGen: ApiGen, spec: Document, ops: seq<OperationDef>)
    : (r: Result<seq<PrepareEndpoints.TypeDef>, Error>)
    ensures r.Success? ==>
      && |r.value| == |ops|
      && forall i :: 0 <= i < |ops| ==> PrepareEndpoints.ReturnTypeOf(apiGen, spec, ops[i]) == Success(r.value[i])
    ensures r.Success? <==> forall i :: 0 <= i < |ops| ==> PrepareEndpoints.ReturnTypeOf(apiGen, spec, ops[i]).Success?
  {
    if |ops| == 0 then Success([])
    else
      var init := ops[..|ops| - 1];
      var prev := PreparedReturnTypes(apiGen, spec, init);
      var last := PrepareEndpoints.ReturnTypeOf(apiGen, spec, ops[|ops| - 1]);
      assert forall i :: 0 <= i < |init| ==> init[i] == ops[i];
      if prev.Failure? then prev
      else if last.Failure? then Failure(last.error)
      else Success(prev.value + [last.value])
  }

  lemma {:induction false} PreparedFailurePrefix(apiGen: ApiGen, spec: Document, ops: seq<OperationDef>, n: nat)
    requires n <= |ops| && PreparedReturnTypes(apiGen, spec, ops[..n]).Failure?
    ensures PreparedReturnTypes(apiGen, spec, ops) == PreparedReturnTypes(apiGen, spec, ops[..n])
    decreases |ops| - n
  {
    if n < |ops| {
      var init := ops[..|ops| - 1];
      assert init[..n] == ops[..n];
      PreparedFailurePrefix(apiGen, spec, init, n);
    } else {
      assert ops[..n] == ops;
    }
  }

  /** src/run.ts:73-75. */
  method PrepareEndpointsLoop(apiGen: ApiGen, spec: Document, ops: seq<OperationDef>)
    returns (r: Result<seq<PrepareEndpoints.TypeDef>, Error>)
    ensures r == PreparedReturnTypes(apiGen, spec, ops)
  {
    var returnTypes: seq<PrepareEndpoints.TypeDef> := [];
    var i := 0;
    while i < |ops|
      invariant 0 <= i <= |ops|
      invariant PreparedReturnTypes(apiGen, spec, ops[..i]) == Success(returnTypes)
    {
      assert ops[..i + 1][..i] == ops[..i];
      var returnType := PrepareEndpoints.GetReturnType(apiGen, spec, ops[i]);
      if returnType.Failure? {
        PreparedFailurePrefix(apiGen, spec, ops, i + 1);
        return Failure(returnType.error);
      }
      returnTypes := returnTypes + [returnType.value];
      i := i + 1;
    }
    assert ops[..i] == ops;
    return Success(returnTypes);
  }

  /** src/run.ts:60-75 as written: `spec` is bound to what `preprocessSpec`
      returns, and it returns nothing, so the first read of `spec` throws. */
  function SrcRunAsWritten(root: Json, decode: Json -> Document, apiGen: ApiGen)
    : (r: Result<seq<PrepareEndpoints.TypeDef>, Error>)
    ensures r.Failure?
    ensures Preprocess.PreprocessSpec(root).Success? ==> r.error.TypeError?
  {
    var preprocessed := Preprocess.PreprocessSpec(root);
    if preprocessed.Failure? then Failure(preprocessed.error)
    else Failure(TypeError("cannot read properties of undefined (reading 'paths')"))
  }

  /** src/run.ts:60-75 with the document that `preprocessSpec` cleaned in
      place, as run.ts:64-66 uses it. */
  function SrcRun(root: Json, decode: Json -> Document, apiGen: ApiGen): Result<seq<PrepareEndpoints.TypeDef>, Error> {
    var cleaned :- Preprocess.PreprocessSpec(root);
    var spec := decode(cleaned);
    var operations :- PrepareEndpoints.AllOperations(apiGen, spec.paths);
    PreparedReturnTypes(apiGen, spec, operations)
  }

  /** Once the document is cleaned and its operations are found, the
      corrected script describes the return type of every operation, in order,
      and fails only where some `getReturnType` call throws. */
  lemma SrcRunDescribesEveryOperation(root: Json, decode: Json -> Document, apiGen: ApiGen)
    requires Preprocess.PreprocessSpec(root).Success?
    requires PrepareEndpoints.AllOperations(apiGen, decode(Preprocess.PreprocessSpec(root).value).paths).Success?
    ensures var spec := decode(Preprocess.PreprocessSpec(root).value);
      var ops := PrepareEndpoints.AllOperations(apiGen, spec.paths).value;
      var r := SrcRun(root, decode, apiGen);
      && (r.Success? <==> forall i :: 0 <= i < |ops| ==> PrepareEndpoints.ReturnTypeOf(apiGen, spec, ops[i]).Success?)
      && (r.Success? ==>
            && |r.value| == |ops|
            && forall i :: 0 <= i < |ops| ==> PrepareEndpoints.ReturnTypeOf(apiGen, spec, ops[i]) == Success(r.value[i]))
  {
  }

  /** The smallest document, `{"paths": {}}`: the corrected script succeeds
      with no operations, the script as written throws. */
  lemma PreprocessResultDiscarded(decode: Json -> Document, apiGen: ApiGen)
    requires decode(JObj([Field("paths", JObj([]))])).paths == []
    ensures SrcRun(JObj([Field("paths", JObj([]))]), decode, apiGen) == Success([])
    ensures SrcRunAsWritten(JObj([Field("paths", JObj([]))]), decode, apiGen).Failure?
  {
    var root := JObj([Field("paths", JObj([]))]);
    var paths := JObj([]);
    assert Get(root.fields, "paths") == Some(paths);
    assert Values(paths) == [];
    assert Preprocess.MapAll(Preprocess.CleanPathItem, []) == Success([]);
    assert WithValues(paths, []) == paths;
    assert Preprocess.CleanPaths(root) == Success(root);
    assert Get(root.fields, "components") == None;
    assert Preprocess.PreprocessSpec(root) == Success(root);
  }

  /** The corrected script is the loop over the operations of the cleaned document. */
  method SrcRunScript(root: Json, decode: Json -> Document, apiGen: ApiGen)
    returns (r: Result<seq<PrepareEndpoints.TypeDef>, Error>)
    ensures r == SrcRun(root, decode, apiGen)
  {
    var spec := new Preprocess.SpecDocument(root);
    var preprocessError := spec.Preprocess();
    if preprocessError.Some? {
      return Failure(preprocessError.value);
    }
    var document := decode(spec.root);
    var operations := PrepareEndpoints.AllOperations(apiGen, document.paths);
    if operations.Failure? {
      return Failure(operations.error);
    }
    r := PrepareEndpointsLoop(apiGen, document, operations.value);
  }
}
